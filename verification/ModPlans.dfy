/** What a resolved plan of mod updates guarantees (`modupdate/newUpdate.go`). */
module ModPlans {
  import opened Wrappers
  import opened Versions
  import opened ModDeps
  import opened ModResolve

  // ----------------------------------------------------------------------- merging

  ghost predicate Unique(list: seq<Download>)
  {
    forall i, j :: 0 <= i < j < |list| ==> list[i].name != list[j].name
  }

  ghost function Names(list: seq<Download>): set<string>
  {
    set i | 0 <= i < |list| :: list[i].name
  }

  lemma NamesOfParts(list: seq<Download>)
    requires list != []
    ensures Names(list) == {list[0].name} + Names(list[1..])
    ensures forall d :: d in list <==> d == list[0] || d in list[1..]
  {
    forall x | x in Names(list) ensures x in {list[0].name} + Names(list[1..]) {
      var i :| 0 <= i < |list| && list[i].name == x;
      if i > 0 { assert list[1..][i - 1].name == x; }
    }
    forall x | x in Names(list[1..]) ensures x in Names(list) {
      var i :| 0 <= i < |list[1..]| && list[1..][i].name == x;
      assert list[i + 1].name == x;
    }
    assert list[0].name in Names(list);
    assert list == [list[0]] + list[1..];
  }

  /** A merged download keeps names unique and adds its own name; what is in the list came
      from the list or is the download. */
  lemma {:induction false} AddDownloadKeeps(d: Download, list: seq<Download>)
    ensures Names(AddDownload(d, list)) == Names(list) + {d.name}
    ensures Unique(list) ==> Unique(AddDownload(d, list))
    ensures forall x :: x in AddDownload(d, list) ==> x == d || x in list
    decreases |list|
  {
    var r := AddDownload(d, list);
    NamesOfParts(r);
    if list == [] {
      assert r[1..] == list && Names(list) == {};
    } else {
      NamesOfParts(list);
      if list[0].name == d.name {
        assert r[1..] == list[1..];
      } else {
        AddDownloadKeeps(d, list[1..]);
        assert r[1..] == AddDownload(d, list[1..]);
        if Unique(list) {
          assert Unique(list[1..]);
          assert list[0].name !in Names(list[1..]);
          assert list[0].name !in Names(r[1..]);
          forall i, j | 0 <= i < j < |r| ensures r[i].name != r[j].name {
            assert r[j] == r[1..][j - 1];
            if i > 0 { assert r[i] == r[1..][i - 1]; }
          }
        }
      }
    }
  }

  /** The download of a name, if the list has one. */
  function Chosen(list: seq<Download>, name: string): Option<Download>
  {
    if list == [] then None else if list[0].name == name then Some(list[0]) else Chosen(list[1..], name)
  }

  lemma {:induction false} AddDownloadChooses(d: Download, list: seq<Download>, name: string)
    ensures Chosen(AddDownload(d, list), name) ==
      if name != d.name then Chosen(list, name)
      else match Chosen(list, name)
        case None => Some(d)
        case Some(had) => if Newer(had.data.version, d.data.version) then Some(d) else Some(had)
    decreases |list|
  {
    if list != [] && list[0].name != d.name { AddDownloadChooses(d, list[1..], name); }
  }

  /** The merge of any number of downloads holds, for each name, one of the newest that were
      offered, and the first of those. */
  lemma {:induction false} MergeKeepsNewest(ds: seq<Download>, list: seq<Download>, name: string)
    requires forall d :: d in ds ==> Parses(d.data.version)
    requires Chosen(list, name).Some? ==> Parses(Chosen(list, name).value.data.version)
    ensures var r := Chosen(AddAll(ds, list), name);
      && (r.None? <==> Chosen(list, name).None? && forall d :: d in ds ==> d.name != name)
      && (r.Some? ==>
            && Parses(r.value.data.version)
            && (r == Chosen(list, name) || (r.value in ds && r.value.name == name))
            && (forall d :: d in ds && d.name == name ==> !Newer(r.value.data.version, d.data.version))
            && (Chosen(list, name).Some? ==> !Newer(r.value.data.version, Chosen(list, name).value.data.version)))
    decreases |ds|
  {
    hide Newer, Parses, AddDownload;
    if ds == [] {
      if Chosen(list, name).Some? { NewerIsOrder(Chosen(list, name).value.data.version, "", ""); }
    } else {
      var d := ds[0];
      var next := AddDownload(d, list);
      AddDownloadChooses(d, list, name);
      FirstOrRest(ds);
      MergeKeepsNewest(ds[1..], next, name);
      var r := Chosen(AddAll(ds, list), name);
      if r.Some? && d.name == name {
        KeptIsNewest(r.value.data.version, d.data.version, Chosen(list, name), Chosen(next, name).value);
      }
    }
  }

  lemma FirstOrRest(ds: seq<Download>)
    requires ds != []
    ensures forall d :: d in ds <==> d == ds[0] || d in ds[1..]
  {
    assert ds == [ds[0]] + ds[1..];
  }

  /** What is not older than the kept one of two is not older than either. */
  lemma KeptIsNewest(r: string, offered: string, had: Option<Download>, kept: Download)
    requires Parses(r) && Parses(offered) && !Newer(r, kept.data.version)
    requires had.None? ==> kept.data.version == offered
    requires had.Some? ==> Parses(had.value.data.version)
    requires had.Some? ==> kept.data.version == if Newer(had.value.data.version, offered) then offered else had.value.data.version
    ensures !Newer(r, offered) && (had.Some? ==> !Newer(r, had.value.data.version))
  {
    hide Newer, Parses;
    NewerIsOrder(r, kept.data.version, offered);
    if had.Some? {
      NewerIsOrder(r, kept.data.version, had.value.data.version);
      NewerIsOrder(had.value.data.version, offered, "");
    }
  }

  // --------------------------------------------------------------- what is planned

  /** A download that may be planned: it matches the game, it is the pinned release or newer
      than what is installed, and it changes what is installed. */
  ghost predicate Legitimate(c: Context, d: Download)
  {
    && d.version == d.data.version && Parses(d.version)
    && d.version != NO_VERSION && d.version != d.oldVersion
    && MatchesGame(c.game, d.data)
    && (if Pin(c, d.name) != "" then d.version == Pin(c, d.name)
        else d.oldVersion == "" || Newer(d.oldVersion, d.version))
  }

  ghost predicate Good(c: Context, list: seq<Download>)
  {
    Unique(list) && forall d :: d in list ==> Legitimate(c, d)
  }

  lemma {:induction false} AddAllKeepsGood(c: Context, ds: seq<Download>, list: seq<Download>)
    requires Good(c, list) && forall d :: d in ds ==> Legitimate(c, d)
    ensures Good(c, AddAll(ds, list))
    decreases |ds|
  {
    hide Legitimate;
    if ds != [] {
      AddDownloadKeeps(ds[0], list);
      AddAllKeepsGood(c, ds[1..], AddDownload(ds[0], list));
    }
  }

  lemma RequiredForKeeps(c: Context, ds: seq<Download>, item: Portal, rel: Release)
    requires forall d :: d in ds ==> Legitimate(c, d)
    ensures forall d :: d in AllRequiredFor(ds, item, rel) ==> Legitimate(c, d)
  {
    forall d | d in AllRequiredFor(ds, item, rel) ensures Legitimate(c, d) {
      var i :| 0 <= i < |ds| && d == RequiredFor(ds[i], item, rel);
      assert Legitimate(c, ds[i]);
    }
  }

  /** A candidate: what is installed, or a release that may be planned. */
  ghost predicate Sensible(c: Context, item: Portal, choice: Choice)
  {
    && Good(c, choice.deps)
    && (choice != Initially(item) ==>
          && choice.resolved
          && Parses(choice.rel.version) && MatchesGame(c.game, choice.rel)
          && (if Pin(c, item.name) != "" then choice.rel.version == Pin(c, item.name)
              else item.installed == "" || Newer(item.installed, choice.rel.version)))
  }

  lemma PlanKeeps(c: Context, item: Portal, choice: Choice, wasDep: bool, acc: seq<Download>)
    requires Good(c, acc) && Sensible(c, item, choice)
    ensures Plan(c, item, choice, wasDep, acc).Ok? ==> Good(c, Plan(c, item, choice, wasDep, acc).value)
  {
    var list := AddAll(choice.deps, acc);
    AddAllKeepsGood(c, choice.deps, acc);
    hide MatchesGame, VersionToInt, AddAll;
    if Plan(c, item, choice, wasDep, acc).Ok? && choice.rel.version != NO_VERSION && item.installed != choice.rel.version {
      var d := Download(item.name, item.title, choice.rel.file, item.installedFile, "", "", choice.rel, choice.rel.version,
                        item.installed, wasDep);
      assert Legitimate(c, d);
      AddDownloadKeeps(d, list);
    }
  }

  /** However the search goes, at every depth: a plan that comes out of it has at most one
      download for each name, and each of them is legitimate. */
  lemma {:induction false} PlansAreGood(c: Context, items: seq<Portal>, wasDep: bool, depth: nat, parents: seq<string>)
    ensures var r := Resolve(c, items, wasDep, depth, parents); r.Ok? ==> Good(c, r.value)
    decreases MAX_DEPTH + 1 - depth, 3, 0
  {
    if depth <= MAX_DEPTH { ItemsAreGood(c, items, 0, wasDep, depth, parents, []); }
  }

  lemma {:induction false} ItemsAreGood(
      c: Context, items: seq<Portal>, i: nat, wasDep: bool, depth: nat, parents: seq<string>, acc: seq<Download>)
    requires i <= |items| && depth <= MAX_DEPTH && Good(c, acc)
    ensures var r := ResolveItems(c, items, i, wasDep, depth, parents, acc); r.Ok? ==> Good(c, r.value)
    decreases MAX_DEPTH + 1 - depth, 2, |items| - i
  {
    hide Good, Plan, Sensible, Pin, MatchesGame;
    if i < |items| {
      if items[i].name in parents {
        ItemsAreGood(c, items, i + 1, wasDep, depth, parents, acc);
      } else {
        InitialIsSensible(c, items[i]);
        ChoiceIsSensible(c, items, items[i], 0, depth, parents, Initially(items[i]));
        var choice := Choose(c, items, items[i], 0, depth, parents, Initially(items[i]));
        if choice.Ok? {
          PlanKeeps(c, items[i], choice.value, wasDep, acc);
          var list := Plan(c, items[i], choice.value, wasDep, acc);
          if list.Ok? { ItemsAreGood(c, items, i + 1, wasDep, depth, parents, list.value); }
        }
      }
    }
  }

  lemma InitialIsSensible(c: Context, item: Portal)
    ensures Sensible(c, item, Initially(item))
  {
  }

  lemma {:induction false} ChoiceIsSensible(
      c: Context, items: seq<Portal>, item: Portal, j: nat, depth: nat, parents: seq<string>, choice: Choice)
    requires j <= |item.releases| && depth <= MAX_DEPTH && Sensible(c, item, choice)
    ensures var r := Choose(c, items, item, j, depth, parents, choice); r.Ok? ==> Sensible(c, item, r.value)
    decreases MAX_DEPTH + 1 - depth, 1, |item.releases| - j
  {
    hide Sensible, Good, InQuestion;
    if j < |item.releases| {
      var rel := item.releases[j];
      var asked := InQuestion(c, item, rel, choice);
      if asked == Ok(false) {
        ChoiceIsSensible(c, items, item, j + 1, depth, parents, choice);
      } else if asked == Ok(true) {
        EmptyIsGood(c);
        DepsAreGood(c, items, item, rel, 0, depth, parents, true, []);
        var deps := DepsOf(c, items, item, rel, 0, depth, parents, true, []);
        if deps.Ok? && deps.value.None? {
          ChoiceIsSensible(c, items, item, j + 1, depth, parents, choice);
        } else if deps.Ok? {
          AskedIsSensible(c, item, rel, choice, deps.value.value);
          ChoiceIsSensible(c, items, item, j + 1, depth, parents, Choice(rel, deps.value.value, true));
        }
      }
    }
  }

  lemma EmptyIsGood(c: Context)
    ensures Good(c, [])
  {
  }

  lemma AskedIsSensible(c: Context, item: Portal, rel: Release, choice: Choice, deps: seq<Download>)
    requires InQuestion(c, item, rel, choice) == Ok(true) && Good(c, deps)
    ensures Sensible(c, item, Choice(rel, deps, true))
  {
    CheckIsOrder(Greater, choice.rel.version, rel.version);
    hide MatchesGame, VersionToInt, Good;
  }

  lemma {:induction false} DepsAreGood(
      c: Context, items: seq<Portal>, item: Portal, rel: Release, k: nat, depth: nat, parents: seq<string>,
      met: bool, acc: seq<Download>)
    requires k <= |rel.deps| && depth <= MAX_DEPTH && Good(c, acc)
    ensures var r := DepsOf(c, items, item, rel, k, depth, parents, met, acc);
      r.Ok? && r.value.Some? ==> Good(c, r.value.value)
    decreases MAX_DEPTH + 1 - depth, 0, |rel.deps| - k
  {
    hide Good, ParseDep, BaseHolds, AddAll;
    if k < |rel.deps| {
      var dep := ParseDep(rel.deps[k]);
      if dep.incompatible || dep.optional {
        DepsAreGood(c, items, item, rel, k + 1, depth, parents, met, acc);
      } else if IsBaseMod(dep.name) {
        DepsAreGood(c, items, item, rel, k + 1, depth, parents, met && BaseHolds(c.game, dep), acc);
      } else {
        DepPlanIsGood(c, items, item, dep, depth, parents);
        var dl := DepPlan(c, items, item, dep, depth, parents);
        if dl.Ok? && dl.value.None? {
          DepsAreGood(c, items, item, rel, k + 1, depth, parents, false, acc);
        } else if dl.Ok? {
          DepsMerge(c, dl.value.value, item, rel, acc);
          DepsAreGood(c, items, item, rel, k + 1, depth, parents, met, AddAll(AllRequiredFor(dl.value.value, item, rel), acc));
        }
      }
    }
  }

  lemma DepsMerge(c: Context, dl: seq<Download>, item: Portal, rel: Release, acc: seq<Download>)
    requires Good(c, dl) && Good(c, acc)
    ensures Good(c, AddAll(AllRequiredFor(dl, item, rel), acc))
  {
    hide Legitimate, AddAll;
    RequiredForKeeps(c, dl, item, rel);
    AddAllKeepsGood(c, AllRequiredFor(dl, item, rel), acc);
  }

  lemma {:induction false} DepPlanIsGood(
      c: Context, items: seq<Portal>, item: Portal, dep: Dep, depth: nat, parents: seq<string>)
    requires depth <= MAX_DEPTH
    ensures var r := DepPlan(c, items, item, dep, depth, parents);
      r.Ok? && r.value.Some? ==> Good(c, r.value.value)
    decreases MAX_DEPTH + 1 - depth, 0, 0
  {
    hide Good, Satisfied;
    var known := if Find(items, dep.name).Some? then Ok(Find(items, dep.name).value) else c.portal(dep.name);
    if known.Ok? { PlansAreGood(c, [known.value], true, depth + 1, parents + [item.name]); }
  }

  // ------------------------------------------------------------ what is chosen

  /** A release that could be chosen: the pinned one, or one newer than what is installed,
      that matches the game and has its dependencies met. */
  ghost predicate Admissible(c: Context, items: seq<Portal>, item: Portal, depth: nat, parents: seq<string>, rel: Release)
    requires depth <= MAX_DEPTH
  {
    && (if Pin(c, item.name) != "" then rel.version == Pin(c, item.name)
        else Newer(Initially(item).rel.version, rel.version))
    && MatchesGame(c.game, rel)
    && DepsOf(c, items, item, rel, 0, depth, parents, true, []).Ok?
    && DepsOf(c, items, item, rel, 0, depth, parents, true, []).value.Some?
  }

  /** The candidate is the best of the first `upTo` releases: of the admissible ones the
      newest, and the first of those; of the pinned ones the last. */
  ghost predicate BestOf(
      c: Context, items: seq<Portal>, item: Portal, depth: nat, parents: seq<string>, upTo: nat, choice: Choice)
    requires depth <= MAX_DEPTH && upTo <= |item.releases|
  {
    if choice == Initially(item) then
      forall i :: 0 <= i < upTo ==> !Admissible(c, items, item, depth, parents, item.releases[i])
    else
      && choice.resolved
      && DepsOf(c, items, item, choice.rel, 0, depth, parents, true, []) == Ok(Some(choice.deps))
      && Admissible(c, items, item, depth, parents, choice.rel)
      && exists n :: 0 <= n < upTo && item.releases[n] == choice.rel && IsNth(c, items, item, depth, parents, upTo, n)
  }

  ghost predicate IsNth(
      c: Context, items: seq<Portal>, item: Portal, depth: nat, parents: seq<string>, upTo: nat, n: nat)
    requires depth <= MAX_DEPTH && n < upTo <= |item.releases|
  {
    forall i :: 0 <= i < upTo && Admissible(c, items, item, depth, parents, item.releases[i]) ==>
      if Pin(c, item.name) != "" then i <= n
      else !Newer(item.releases[n].version, item.releases[i].version)
           && (i < n ==> Newer(item.releases[i].version, item.releases[n].version))
  }

  lemma NthExtends(
      c: Context, items: seq<Portal>, item: Portal, j: nat, depth: nat, parents: seq<string>, n: nat)
    requires n < j < |item.releases| && depth <= MAX_DEPTH && IsNth(c, items, item, depth, parents, j, n)
    requires Admissible(c, items, item, depth, parents, item.releases[j]) ==>
      Pin(c, item.name) == "" && !Newer(item.releases[n].version, item.releases[j].version)
    ensures IsNth(c, items, item, depth, parents, j + 1, n)
  {
    hide Admissible, Newer, Pin;
  }

  /** A release that is passed over does not change which candidate is the best. */
  lemma PassedOver(c: Context, items: seq<Portal>, item: Portal, j: nat, depth: nat, parents: seq<string>, choice: Choice)
    requires j < |item.releases| && depth <= MAX_DEPTH && BestOf(c, items, item, depth, parents, j, choice)
    requires InQuestion(c, item, item.releases[j], choice) == Ok(false)
          || !Admissible(c, items, item, depth, parents, item.releases[j])
    ensures BestOf(c, items, item, depth, parents, j + 1, choice)
  {
    hide Admissible, IsNth, InQuestion, DepsOf, Newer, Pin;
    var rel := item.releases[j];
    if Admissible(c, items, item, depth, parents, rel) {
      NotInQuestion(c, items, item, depth, parents, rel, choice);
    }
    if choice != Initially(item) {
      var n :| 0 <= n < j && item.releases[n] == choice.rel && IsNth(c, items, item, depth, parents, j, n);
      NthExtends(c, items, item, j, depth, parents, n);
    }
  }

  lemma NotInQuestion(
      c: Context, items: seq<Portal>, item: Portal, depth: nat, parents: seq<string>, rel: Release, choice: Choice)
    requires depth <= MAX_DEPTH && Admissible(c, items, item, depth, parents, rel)
    requires InQuestion(c, item, rel, choice) == Ok(false)
    ensures Pin(c, item.name) == "" && !Newer(choice.rel.version, rel.version) && choice != Initially(item)
  {
    hide DepsOf, MatchesGame, VersionToInt, GetVersion, EqualFold;
  }

  lemma Overtakes(base: string, candidate: string, other: string, rel: string)
    requires Newer(base, other) && Newer(candidate, rel) && !Newer(candidate, other)
    ensures Newer(other, rel) && !Newer(rel, other)
  {
    hide Newer, Parses;
    NewerIsOrder(base, other, "");
    NewerIsOrder(candidate, rel, other);
    NewerIsOrder(other, rel, "");
  }

  /** A release in question with its dependencies met is admissible. */
  lemma AskedIsAdmissible(
      c: Context, items: seq<Portal>, item: Portal, j: nat, depth: nat, parents: seq<string>, choice: Choice)
    requires j < |item.releases| && depth <= MAX_DEPTH && BestOf(c, items, item, depth, parents, j, choice)
    requires InQuestion(c, item, item.releases[j], choice) == Ok(true)
    requires DepsOf(c, items, item, item.releases[j], 0, depth, parents, true, []).Ok?
    requires DepsOf(c, items, item, item.releases[j], 0, depth, parents, true, []).value.Some?
    ensures Admissible(c, items, item, depth, parents, item.releases[j])
  {
    hide DepsOf, MatchesGame, InQuestion, IsNth, Newer, Parses, Pin;
    var rel := item.releases[j];
    QuestionIsNewer(c, item, rel, choice);
    NewerIsOrder(Initially(item).rel.version, choice.rel.version, rel.version);
  }

  lemma TakenOver(c: Context, items: seq<Portal>, item: Portal, j: nat, depth: nat, parents: seq<string>, choice: Choice)
    requires j < |item.releases| && depth <= MAX_DEPTH && BestOf(c, items, item, depth, parents, j, choice)
    requires InQuestion(c, item, item.releases[j], choice) == Ok(true)
    requires DepsOf(c, items, item, item.releases[j], 0, depth, parents, true, []).Ok?
    requires DepsOf(c, items, item, item.releases[j], 0, depth, parents, true, []).value.Some?
    ensures BestOf(c, items, item, depth, parents, j + 1,
      Choice(item.releases[j], DepsOf(c, items, item, item.releases[j], 0, depth, parents, true, []).value.value, true))
  {
    hide DepsOf, Admissible, InQuestion, IsNth, Newer, Pin;
    AskedIsAdmissible(c, items, item, j, depth, parents, choice);
    QuestionIsNewer(c, item, item.releases[j], choice);
    LastIsNth(c, items, item, j, depth, parents, choice);
  }

  lemma LastIsNth(c: Context, items: seq<Portal>, item: Portal, j: nat, depth: nat, parents: seq<string>, choice: Choice)
    requires j < |item.releases| && depth <= MAX_DEPTH && BestOf(c, items, item, depth, parents, j, choice)
    requires Pin(c, item.name) == "" ==> Newer(choice.rel.version, item.releases[j].version)
    ensures IsNth(c, items, item, depth, parents, j + 1, j)
  {
    hide DepsOf, MatchesGame, Newer, Pin;
    var rel := item.releases[j];
    NewerIsOrder(rel.version, "", "");
    forall i | 0 <= i < j + 1 && Admissible(c, items, item, depth, parents, item.releases[i])
      ensures if Pin(c, item.name) != "" then i <= j
        else !Newer(rel.version, item.releases[i].version) && (i < j ==> Newer(item.releases[i].version, rel.version))
    {
      if Pin(c, item.name) == "" && i < j {
        var n :| 0 <= n < j && item.releases[n] == choice.rel && IsNth(c, items, item, depth, parents, j, n);
        Overtakes(Initially(item).rel.version, choice.rel.version, item.releases[i].version, rel.version);
      }
    }
  }

  lemma QuestionIsNewer(c: Context, item: Portal, rel: Release, choice: Choice)
    requires InQuestion(c, item, rel, choice) == Ok(true)
    ensures MatchesGame(c.game, rel)
    ensures if Pin(c, item.name) != "" then rel.version == Pin(c, item.name) else Newer(choice.rel.version, rel.version)
  {
    hide MatchesGame, VersionToInt;
  }

  lemma {:induction false} ChoiceIsBest(
      c: Context, items: seq<Portal>, item: Portal, j: nat, depth: nat, parents: seq<string>, choice: Choice)
    requires j <= |item.releases| && depth <= MAX_DEPTH && BestOf(c, items, item, depth, parents, j, choice)
    ensures var r := Choose(c, items, item, j, depth, parents, choice);
      r.Ok? ==> BestOf(c, items, item, depth, parents, |item.releases|, r.value)
    decreases |item.releases| - j
  {
    hide BestOf, InQuestion, DepsOf, MatchesGame;
    if j < |item.releases| {
      var rel := item.releases[j];
      var asked := InQuestion(c, item, rel, choice);
      if asked == Ok(false) {
        PassedOver(c, items, item, j, depth, parents, choice);
        ChoiceIsBest(c, items, item, j + 1, depth, parents, choice);
      } else if asked == Ok(true) {
        var deps := DepsOf(c, items, item, rel, 0, depth, parents, true, []);
        if deps.Ok? && deps.value.None? {
          PassedOver(c, items, item, j, depth, parents, choice);
          ChoiceIsBest(c, items, item, j + 1, depth, parents, choice);
        } else if deps.Ok? {
          TakenOver(c, items, item, j, depth, parents, choice);
          ChoiceIsBest(c, items, item, j + 1, depth, parents, Choice(rel, deps.value.value, true));
        }
      }
    }
  }

  /** When the search settles on a release of a mod, it is the newest admissible one, and the
      first of those in the portal's order; it settles on none exactly when none is
      admissible. A pin leaves only the pinned release. */
  lemma ChosenIsNewest(c: Context, items: seq<Portal>, item: Portal, depth: nat, parents: seq<string>)
    requires depth <= MAX_DEPTH && Choose(c, items, item, 0, depth, parents, Initially(item)).Ok?
    ensures BestOf(c, items, item, depth, parents, |item.releases|,
      Choose(c, items, item, 0, depth, parents, Initially(item)).value)
  {
    assert BestOf(c, items, item, depth, parents, 0, Initially(item));
    ChoiceIsBest(c, items, item, 0, depth, parents, Initially(item));
  }

  /** Whether one dependency of a release is met. */
  ghost predicate Met(c: Context, items: seq<Portal>, item: Portal, depth: nat, parents: seq<string>, raw: string)
    requires depth <= MAX_DEPTH
  {
    var dep := ParseDep(raw);
    || dep.incompatible || dep.optional
    || (IsBaseMod(dep.name) && BaseHolds(c.game, dep))
    || (!IsBaseMod(dep.name) && DepPlan(c, items, item, dep, depth, parents).Ok?
        && DepPlan(c, items, item, dep, depth, parents).value.Some?)
  }

  /** A release has its dependencies met exactly when each of them is: optional, ruled out, a
      built-in that holds, or satisfied by what is installed or by a search for it. */
  lemma {:induction false} DepsAreMetIff(
      c: Context, items: seq<Portal>, item: Portal, rel: Release, k: nat, depth: nat, parents: seq<string>,
      met: bool, acc: seq<Download>)
    requires k <= |rel.deps| && depth <= MAX_DEPTH
    ensures var r := DepsOf(c, items, item, rel, k, depth, parents, met, acc);
      (r.Ok? && r.value.Some?) <==> met && forall i :: k <= i < |rel.deps| ==> Met(c, items, item, depth, parents, rel.deps[i])
    decreases |rel.deps| - k
  {
    hide ParseDep, BaseHolds, AddAll, DepPlan;
    if k < |rel.deps| {
      var dep := ParseDep(rel.deps[k]);
      if dep.incompatible || dep.optional {
        DepsAreMetIff(c, items, item, rel, k + 1, depth, parents, met, acc);
      } else if IsBaseMod(dep.name) {
        DepsAreMetIff(c, items, item, rel, k + 1, depth, parents, met && BaseHolds(c.game, dep), acc);
      } else {
        var dl := DepPlan(c, items, item, dep, depth, parents);
        if dl.Ok? && dl.value.None? {
          DepsAreMetIff(c, items, item, rel, k + 1, depth, parents, false, acc);
        } else if dl.Ok? {
          DepsAreMetIff(c, items, item, rel, k + 1, depth, parents, met, AddAll(AllRequiredFor(dl.value.value, item, rel), acc));
        }
      }
    }
  }

  // ------------------------------------------------------- what a plan holds

  /** The plan has a download of the name, and not one older than `version`. */
  predicate Carries(list: seq<Download>, name: string, version: string)
  {
    && Chosen(list, name).Some?
    && Parses(Chosen(list, name).value.data.version) && !Newer(Chosen(list, name).value.data.version, version)
  }

  lemma {:induction false} ChosenIsOfList(list: seq<Download>, name: string)
    ensures Chosen(list, name).Some? ==> Chosen(list, name).value in list
  {
    if list != [] {
      ChosenIsOfList(list[1..], name);
      assert list == [list[0]] + list[1..];
    }
  }

  /** Merging more never makes a plan carry less. */
  lemma MergeCarries(c: Context, ds: seq<Download>, list: seq<Download>, name: string, version: string)
    requires Good(c, list) && (forall d :: d in ds ==> Legitimate(c, d)) && Parses(version)
    ensures Carries(list, name, version) ==> Carries(AddAll(ds, list), name, version)
    ensures forall d :: d in ds && d.name == name ==> Carries(AddAll(ds, list), name, d.data.version)
  {
    ChosenIsOfList(list, name);
    assert forall d :: d in ds ==> Parses(d.data.version);
    hide Newer, Parses, AddAll, MatchesGame, Pin;
    MergeKeepsNewest(ds, list, name);
    if Carries(list, name, version) {
      var had := Chosen(list, name).value.data.version;
      NewerIsOrder(Chosen(AddAll(ds, list), name).value.data.version, had, version);
    }
  }

  lemma OneIsAll(d: Download, list: seq<Download>)
    ensures AddAll([d], list) == AddDownload(d, list)
  {
    assert [d][1..] == [];
  }

  /** The chosen release of a mod differs from what is installed. */
  predicate Wanted(item: Portal, choice: Choice)
  {
    choice.rel.version != NO_VERSION && item.installed != choice.rel.version
  }

  lemma PlanCarries(c: Context, item: Portal, choice: Choice, wasDep: bool, acc: seq<Download>, name: string, version: string)
    requires Good(c, acc) && Sensible(c, item, choice) && Parses(version)
    requires Plan(c, item, choice, wasDep, acc).Ok?
    ensures var list := Plan(c, item, choice, wasDep, acc).value;
      && (Carries(acc, name, version) ==> Carries(list, name, version))
      && (Wanted(item, choice) ==> Carries(list, item.name, choice.rel.version))
  {
    var list := AddAll(choice.deps, acc);
    AddAllKeepsGood(c, choice.deps, acc);
    MergeCarries(c, choice.deps, acc, name, version);
    if Wanted(item, choice) {
      var d := Download(item.name, item.title, choice.rel.file, item.installedFile, "", "", choice.rel, choice.rel.version,
                        item.installed, wasDep);
      assert Legitimate(c, d);
      OneIsAll(d, list);
      MergeCarries(c, [d], list, name, version);
      MergeCarries(c, [d], list, item.name, choice.rel.version);
    }
    hide MatchesGame, VersionToInt, AddAll, Carries, Good, Legitimate;
  }

  lemma {:induction false} ItemsCarry(
      c: Context, items: seq<Portal>, i: nat, wasDep: bool, depth: nat, parents: seq<string>, acc: seq<Download>,
      name: string, version: string)
    requires i <= |items| && depth <= MAX_DEPTH && Good(c, acc) && Parses(version)
    requires ResolveItems(c, items, i, wasDep, depth, parents, acc).Ok?
    ensures var list := ResolveItems(c, items, i, wasDep, depth, parents, acc).value;
      && (Carries(acc, name, version) ==> Carries(list, name, version))
      && forall k :: i <= k < |items| && items[k].name !in parents ==>
           var choice := Choose(c, items, items[k], 0, depth, parents, Initially(items[k]));
           choice.Ok? && (Wanted(items[k], choice.value) ==> Carries(list, items[k].name, choice.value.rel.version))
    decreases |items| - i
  {
    hide Good, Plan, Sensible, Pin, MatchesGame, Carries, Choose, Wanted, Parses;
    if i < |items| {
      if items[i].name in parents {
        ItemsCarry(c, items, i + 1, wasDep, depth, parents, acc, name, version);
      } else {
        InitialIsSensible(c, items[i]);
        ChoiceIsSensible(c, items, items[i], 0, depth, parents, Initially(items[i]));
        var choice := Choose(c, items, items[i], 0, depth, parents, Initially(items[i])).value;
        PlanKeeps(c, items[i], choice, wasDep, acc);
        PlanCarries(c, items[i], choice, wasDep, acc, name, version);
        var list := Plan(c, items[i], choice, wasDep, acc).value;
        ItemsCarry(c, items, i + 1, wasDep, depth, parents, list, name, version);
        if Wanted(items[i], choice) {
          WantedParses(c, items[i], choice);
          ItemsCarry(c, items, i + 1, wasDep, depth, parents, list, items[i].name, choice.rel.version);
        }
      }
    }
  }

  lemma WantedParses(c: Context, item: Portal, choice: Choice)
    requires Sensible(c, item, choice) && Wanted(item, choice)
    ensures Parses(choice.rel.version)
  {
  }

  /** A plan that is returned carries every mod that was asked about, save those whose
      resolution is under way: where the chosen release differs from what is installed, a
      download of that mod that is not older than the chosen release. */
  lemma PlanCarriesChosen(c: Context, items: seq<Portal>, wasDep: bool, depth: nat, parents: seq<string>, k: nat)
    requires depth <= MAX_DEPTH && k < |items| && items[k].name !in parents
    requires Resolve(c, items, wasDep, depth, parents).Ok?
    ensures var choice := Choose(c, items, items[k], 0, depth, parents, Initially(items[k]));
      && choice.Ok?
      && BestOf(c, items, items[k], depth, parents, |items[k].releases|, choice.value)
      && (Wanted(items[k], choice.value) ==>
            Carries(Resolve(c, items, wasDep, depth, parents).value, items[k].name, choice.value.rel.version))
  {
    EmptyIsGood(c);
    NoVersionParses();
    ItemsCarry(c, items, 0, wasDep, depth, parents, [], "", NO_VERSION);
    ChosenIsNewest(c, items, items[k], depth, parents);
    hide Good, Choose, Carries, BestOf, Wanted;
  }

  lemma NoVersionParses()
    ensures Parses(NO_VERSION)
  {
    assert Print(0) == "0";
    assert "0" + "." + "0" + "." + "0" == NO_VERSION;
    VersionRoundTrip(0, 0, 0);
    hide VersionToInt;
  }

  // ---------------------------------------------- dependencies nobody has heard of

  /** A required dependency on a mod that is neither at hand nor known to the portal ends the
      search with an error, whatever else the release depends on. */
  lemma {:induction false} UnknownDepFails(
      c: Context, items: seq<Portal>, item: Portal, rel: Release, k: nat, at: nat, depth: nat, parents: seq<string>,
      met: bool, acc: seq<Download>)
    requires k <= at < |rel.deps| && depth <= MAX_DEPTH
    requires var dep := ParseDep(rel.deps[at]);
      !dep.incompatible && !dep.optional && !IsBaseMod(dep.name) && Find(items, dep.name).None? && c.portal(dep.name).Err?
    ensures DepsOf(c, items, item, rel, k, depth, parents, met, acc).Err?
    decreases at - k
  {
    hide ParseDep, BaseHolds, AddAll, IsBaseMod, Resolve;
    var dep := ParseDep(rel.deps[k]);
    if k == at {
      assert DepPlan(c, items, item, dep, depth, parents).Err?;
    } else if dep.incompatible || dep.optional {
      UnknownDepFails(c, items, item, rel, k + 1, at, depth, parents, met, acc);
    } else if IsBaseMod(dep.name) {
      UnknownDepFails(c, items, item, rel, k + 1, at, depth, parents, met && BaseHolds(c.game, dep), acc);
    } else {
      var dl := DepPlan(c, items, item, dep, depth, parents);
      if dl.Ok? && dl.value.None? {
        UnknownDepFails(c, items, item, rel, k + 1, at, depth, parents, false, acc);
      } else if dl.Ok? {
        UnknownDepFails(c, items, item, rel, k + 1, at, depth, parents, met,
                        AddAll(AllRequiredFor(dl.value.value, item, rel), acc));
      }
    }
  }

  lemma MarkedIsNoBase(gap: string, name: string)
    ensures !IsBaseMod("+" + gap + name)
  {
    assert ("+" + gap + name)[0] == '+';
  }

  /** What the loop over the releases makes of one of them. */
  function Considered(c: Context, items: seq<Portal>, item: Portal, rel: Release, depth: nat, parents: seq<string>, choice: Choice)
    : Result<Choice, Error>
    requires depth <= MAX_DEPTH
  {
    match InQuestion(c, item, rel, choice)
    case Err(e) => Err(e)
    case Ok(false) => Ok(choice)
    case Ok(true) =>
      match DepsOf(c, items, item, rel, 0, depth, parents, true, [])
      case Err(e) => Err(e)
      case Ok(None) => Ok(choice)
      case Ok(Some(deps)) => Ok(Choice(rel, deps, true))
  }

  /** The candidate when the loop gets to the `j`th release, or why it does not get there. */
  function ChoiceAt(c: Context, items: seq<Portal>, item: Portal, j: nat, depth: nat, parents: seq<string>): Result<Choice, Error>
    requires j <= |item.releases| && depth <= MAX_DEPTH
  {
    if j == 0 then Ok(Initially(item))
    else
      match ChoiceAt(c, items, item, j - 1, depth, parents)
      case Err(e) => Err(e)
      case Ok(choice) => Considered(c, items, item, item.releases[j - 1], depth, parents, choice)
  }

  /** The loop gets to a release, and it comes into question there. */
  predicate ComesUp(c: Context, items: seq<Portal>, item: Portal, j: nat, depth: nat, parents: seq<string>)
    requires j < |item.releases| && depth <= MAX_DEPTH
  {
    var before := ChoiceAt(c, items, item, j, depth, parents);
    before.Ok? && InQuestion(c, item, item.releases[j], before.value) == Ok(true)
  }

  lemma {:induction false} ChooseFrom(c: Context, items: seq<Portal>, item: Portal, j: nat, depth: nat, parents: seq<string>)
    requires j <= |item.releases| && depth <= MAX_DEPTH
    ensures Choose(c, items, item, 0, depth, parents, Initially(item)) ==
      match ChoiceAt(c, items, item, j, depth, parents)
      case Err(e) => Err(e)
      case Ok(choice) => Choose(c, items, item, j, depth, parents, choice)
    decreases j
  {
    hide InQuestion, DepsOf;
    if j > 0 { ChooseFrom(c, items, item, j - 1, depth, parents); }
  }

  /** The same mod, where one release asks for nothing. */
  function Bare(item: Portal, j: nat): Portal
    requires j < |item.releases|
  {
    item.(releases := item.releases[j := item.releases[j].(deps := [])])
  }

  lemma {:induction false} DepsIgnoreReleases(
      c: Context, items: seq<Portal>, item: Portal, other: Portal, rel: Release, k: nat, depth: nat, parents: seq<string>,
      met: bool, acc: seq<Download>)
    requires k <= |rel.deps| && depth <= MAX_DEPTH && other == item.(releases := other.releases)
    ensures DepsOf(c, items, item, rel, k, depth, parents, met, acc) == DepsOf(c, items, other, rel, k, depth, parents, met, acc)
    decreases |rel.deps| - k
  {
    hide ParseDep, BaseHolds, AddAll, IsBaseMod, Resolve;
    if k < |rel.deps| {
      var dep := ParseDep(rel.deps[k]);
      if dep.incompatible || dep.optional {
        DepsIgnoreReleases(c, items, item, other, rel, k + 1, depth, parents, met, acc);
      } else if IsBaseMod(dep.name) {
        DepsIgnoreReleases(c, items, item, other, rel, k + 1, depth, parents, met && BaseHolds(c.game, dep), acc);
      } else {
        var dl := DepPlan(c, items, item, dep, depth, parents);
        assert dl == DepPlan(c, items, other, dep, depth, parents);
        if dl.Ok? && dl.value.None? {
          DepsIgnoreReleases(c, items, item, other, rel, k + 1, depth, parents, false, acc);
        } else if dl.Ok? {
          var more := AllRequiredFor(dl.value.value, item, rel);
          assert more == AllRequiredFor(dl.value.value, other, rel);
          DepsIgnoreReleases(c, items, item, other, rel, k + 1, depth, parents, met, AddAll(more, acc));
        }
      }
    }
  }

  lemma ConsideredAlike(
      c: Context, items: seq<Portal>, item: Portal, other: Portal, rel: Release, depth: nat, parents: seq<string>, choice: Choice)
    requires depth <= MAX_DEPTH && other == item.(releases := other.releases)
    ensures Considered(c, items, item, rel, depth, parents, choice) == Considered(c, items, other, rel, depth, parents, choice)
  {
    InQuestionAlike(c, item, other, rel, choice);
    DepsIgnoreReleases(c, items, item, other, rel, 0, depth, parents, true, []);
    hide DepsOf, InQuestion;
  }

  lemma InQuestionAlike(c: Context, item: Portal, other: Portal, rel: Release, choice: Choice)
    requires other == item.(releases := other.releases)
    ensures InQuestion(c, item, rel, choice) == InQuestion(c, other, rel, choice)
  {
  }

  lemma {:induction false} ChoiceAtAlike(
      c: Context, items: seq<Portal>, item: Portal, other: Portal, k: nat, depth: nat, parents: seq<string>)
    requires depth <= MAX_DEPTH && other == item.(releases := other.releases)
    requires k <= |item.releases| == |other.releases| && forall i :: 0 <= i < k ==> item.releases[i] == other.releases[i]
    ensures ChoiceAt(c, items, item, k, depth, parents) == ChoiceAt(c, items, other, k, depth, parents)
    decreases k
  {
    hide Considered;
    if k > 0 {
      ChoiceAtAlike(c, items, item, other, k - 1, depth, parents);
      var before := ChoiceAt(c, items, item, k - 1, depth, parents);
      if before.Ok? { ConsideredAlike(c, items, item, other, item.releases[k - 1], depth, parents, before.value); }
    }
  }

  lemma {:induction false} ChooseAlike(
      c: Context, items: seq<Portal>, item: Portal, other: Portal, k: nat, depth: nat, parents: seq<string>, choice: Choice)
    requires depth <= MAX_DEPTH && other == item.(releases := other.releases)
    requires k <= |item.releases| == |other.releases| && forall i :: k <= i < |item.releases| ==> item.releases[i] == other.releases[i]
    ensures Choose(c, items, item, k, depth, parents, choice) == Choose(c, items, other, k, depth, parents, choice)
    decreases |item.releases| - k
  {
    hide InQuestion, DepsOf;
    if k < |item.releases| {
      var next := Considered(c, items, item, item.releases[k], depth, parents, choice);
      InQuestionAlike(c, item, other, item.releases[k], choice);
      DepsIgnoreReleases(c, items, item, other, item.releases[k], 0, depth, parents, true, []);
      if next.Ok? { ChooseAlike(c, items, item, other, k + 1, depth, parents, next.value); }
    }
  }

  /** A required dependency on a mod that nobody has heard of. */
  predicate Unheard(c: Context, items: seq<Portal>, raw: string)
  {
    var dep := ParseDep(raw);
    !dep.incompatible && !dep.optional && !IsBaseMod(dep.name) && Find(items, dep.name).None? && c.portal(dep.name).Err?
  }

  /** A release with such a dependency ends the search for its mod with an error when it comes
      into question at its turn; otherwise it is as if it asked for nothing. */
  lemma UnheardOnlyHurtsInQuestion(c: Context, items: seq<Portal>, item: Portal, j: nat, at: nat, depth: nat, parents: seq<string>)
    requires depth <= MAX_DEPTH && j < |item.releases| && at < |item.releases[j].deps| && Unheard(c, items, item.releases[j].deps[at])
    ensures var found := Choose(c, items, item, 0, depth, parents, Initially(item));
      if ComesUp(c, items, item, j, depth, parents) then found.Err?
      else found == Choose(c, items, Bare(item, j), 0, depth, parents, Initially(Bare(item, j)))
  {
    var other := Bare(item, j);
    var rel := item.releases[j];
    UnknownDepFails(c, items, item, rel, 0, at, depth, parents, true, []);
    hide InQuestion, DepsOf, Unheard, Choose;
    ChooseFrom(c, items, item, j, depth, parents);
    var before := ChoiceAt(c, items, item, j, depth, parents);
    if before.Ok? { ChooseStep(c, items, item, j, depth, parents, before.value); }
    if !ComesUp(c, items, item, j, depth, parents) {
      ChooseFrom(c, items, other, j, depth, parents);
      ChoiceAtAlike(c, items, item, other, j, depth, parents);
      if before.Ok? {
        ChooseStep(c, items, other, j, depth, parents, before.value);
        InQuestionBare(c, item, j, before.value);
        ChooseAlike(c, items, item, other, j + 1, depth, parents, before.value);
      }
    }
  }

  lemma ChooseStep(c: Context, items: seq<Portal>, item: Portal, j: nat, depth: nat, parents: seq<string>, choice: Choice)
    requires depth <= MAX_DEPTH && j < |item.releases|
    ensures Choose(c, items, item, j, depth, parents, choice) ==
      match Considered(c, items, item, item.releases[j], depth, parents, choice)
      case Err(e) => Err(e)
      case Ok(next) => Choose(c, items, item, j + 1, depth, parents, next)
  {
    hide InQuestion, DepsOf;
  }

  lemma InQuestionBare(c: Context, item: Portal, j: nat, choice: Choice)
    requires j < |item.releases|
    ensures InQuestion(c, item, item.releases[j], choice) == InQuestion(c, Bare(item, j), Bare(item, j).releases[j], choice)
  {
  }

  lemma {:induction false} OneItemFails(
      c: Context, items: seq<Portal>, i: nat, at: nat, wasDep: bool, depth: nat, parents: seq<string>, acc: seq<Download>)
    requires depth <= MAX_DEPTH && i <= at < |items| && items[at].name !in parents
    requires Choose(c, items, items[at], 0, depth, parents, Initially(items[at])).Err?
    ensures ResolveItems(c, items, i, wasDep, depth, parents, acc).Err?
    decreases at - i
  {
    hide Choose, Plan;
    if i < at {
      if items[i].name in parents {
        OneItemFails(c, items, i + 1, at, wasDep, depth, parents, acc);
      } else {
        var choice := Choose(c, items, items[i], 0, depth, parents, Initially(items[i]));
        if choice.Ok? {
          var list := Plan(c, items[i], choice.value, wasDep, acc);
          if list.Ok? { OneItemFails(c, items, i + 1, at, wasDep, depth, parents, list.value); }
        }
      }
    }
  }

  /** So in any list of mods, a release that recommends a mod with the `+` mark, with or
      without a version and wherever among its dependencies, fails the whole search when it
      comes into question at its turn, since the portal, asked for a mod whose name begins
      with the mark, knows none; and when it does not, the release that is chosen for its mod
      is the same as if it asked for nothing. */
  lemma RecommendationFailsSearch(
      c: Context, items: seq<Portal>, i: nat, j: nat, at: nat, gap: string, name: string, op: Operator, version: string,
      left: string, right: string, wasDep: bool, depth: nat, parents: seq<string>)
    requires depth <= MAX_DEPTH && i < |items| && items[i].name !in parents
    requires j < |items[i].releases| && at < |items[i].releases[j].deps|
    requires Plain(name) && Plain(version) && op != Unknown && Blank(gap) && Blank(left) && Blank(right)
    requires items[i].releases[j].deps[at] in {"+" + gap + name, "+" + gap + name + left + OpText(op) + right + version}
    requires Find(items, "+" + gap + name).None? && c.portal("+" + gap + name).Err?
    ensures ComesUp(c, items, items[i], j, depth, parents) ==> Resolve(c, items, wasDep, depth, parents).Err?
    ensures !ComesUp(c, items, items[i], j, depth, parents) ==>
      var bare := Bare(items[i], j);
      Choose(c, items, items[i], 0, depth, parents, Initially(items[i])) ==
        Choose(c, items, bare, 0, depth, parents, Initially(bare))
  {
    RecommendationStaysInName(gap, name, op, version, left, right);
    MarkedIsNoBase(gap, name);
    hide ParseDep, InQuestion, DepsOf, IsBaseMod, Plain, Blank, Plan, OpText, Choose, ComesUp, ResolveItems, Bare;
    UnheardOnlyHurtsInQuestion(c, items, items[i], j, at, depth, parents);
    if ComesUp(c, items, items[i], j, depth, parents) {
      OneItemFails(c, items, 0, i, wasDep, depth, parents, []);
    }
  }

  // ------------------------------------------------------------------ the check

  /** What a dependency asks of the mods that will coexist, in the order of versions. */
  predicate Holds(game: string, final: map<string, Final>, dep: Dep)
  {
    var version := VersionOf(game, final, dep.name);
    if !Present(version) then dep.optional || dep.incompatible
    else if dep.version == "" then !dep.incompatible
    else
      && VersionToInt(dep.version).Some? && VersionToInt(version).Some? && dep.op != Unknown
      && (Stands(dep.op, VersionToInt(dep.version).value, VersionToInt(version).value) <==> !dep.incompatible)
  }

  /** A dependency passes exactly when the version that will be there stands to the one asked
      for as its operator says, or does not where it names a mod that is ruled out; when none
      will be there and it is not required; and never when a version cannot be read. */
  lemma JudgeIsHolds(game: string, final: map<string, Final>, raw: string)
    ensures Judge(game, final, raw) == Fine <==> Holds(game, final, ParseDep(raw))
  {
    var dep := ParseDep(raw);
    CheckIsOrder(dep.op, dep.version, VersionOf(game, final, dep.name));
    hide ParseDep, VersionToInt, CheckVersion, Stands;
  }

  /** A required built-in mod that the search accepts passes the check as well exactly when it
      is the base game or listed among the mods; a built-in nobody listed fails the check. */
  lemma BuiltinsAgreeIff(game: string, final: map<string, Final>, dep: Dep)
    requires IsBaseMod(dep.name) && !dep.optional && !dep.incompatible
    requires Present(game) && (dep.name in final ==> final[dep.name].version == game)
    requires BaseHolds(game, dep)
    ensures Holds(game, final, dep) <==> dep.name == "base" || dep.name in final
  {
    CheckIsOrder(dep.op, dep.version, game);
    hide CheckVersion, IsBaseMod, VersionToInt, Stands;
  }

  /** What is planned replaces what is installed, and nothing else changes. */
  lemma {:induction false} PlanReplaces(mods: seq<Installed>, plan: seq<Download>, name: string)
    requires Unique(plan)
    ensures name in FinalMods(mods, plan) <==> name in EnabledMods(mods) || Chosen(plan, name).Some?
    ensures Chosen(plan, name).Some? ==>
      FinalMods(mods, plan)[name] == Final(Chosen(plan, name).value.version, Chosen(plan, name).value.data.deps)
    ensures Chosen(plan, name).None? && name in EnabledMods(mods) ==> FinalMods(mods, plan)[name] == EnabledMods(mods)[name]
    decreases |plan|
  {
    if plan != [] {
      var rest := plan[..|plan| - 1];
      assert forall i, j :: 0 <= i < j < |rest| ==> rest[i].name != rest[j].name;
      PlanReplaces(mods, rest, name);
      ChosenOfLast(plan, name);
    }
  }

  lemma {:induction false} ChosenOfLast(plan: seq<Download>, name: string)
    requires plan != [] && Unique(plan)
    ensures Chosen(plan, name) ==
      if plan[|plan| - 1].name == name then Some(plan[|plan| - 1]) else Chosen(plan[..|plan| - 1], name)
    decreases |plan|
  {
    if |plan| > 1 {
      assert plan[..|plan| - 1][1..] == plan[1..][..|plan| - 2];
      ChosenOfLast(plan[1..], name);
    }
  }
}
