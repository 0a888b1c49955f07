/** The resolution of mod updates in the form the program has: loops that update a candidate,
    a list and a map, and a recursion into dependencies (`modupdate/newUpdate.go`). */
module ModUpdater {
  import opened Wrappers
  import opened Versions
  import opened ModDeps
  import opened ModResolve
  import opened ModPlans

  lemma {:induction false} AddDownloadAt(d: Download, list: seq<Download>, i: nat)
    requires i <= |list| && forall j :: 0 <= j < i ==> list[j].name != d.name
    ensures i == |list| ==> AddDownload(d, list) == list + [d]
    ensures i < |list| && list[i].name == d.name ==>
      AddDownload(d, list) == if Newer(list[i].data.version, d.data.version) then list[i := d] else list
    decreases i
  {
    if i > 0 {
      AddDownloadAt(d, list[1..], i - 1);
      assert list == [list[0]] + list[1..];
    }
  }

  /** `addDownload`. */
  method MergeDownload(input: Download, list: seq<Download>) returns (merged: seq<Download>)
    ensures merged == AddDownload(input, list)
  {
    for i := 0 to |list|
      invariant forall j :: 0 <= j < i ==> list[j].name != input.name
    {
      if list[i].name == input.name {
        AddDownloadAt(input, list, i);
        var newer := CheckVersion(Greater, list[i].data.version, input.data.version);
        if newer.Err? { return list; }
        if newer.value { return list[i := input]; }
        return list;
      }
    }
    AddDownloadAt(input, list, |list|);
    return list + [input];
  }

  method MergeAll(inputs: seq<Download>, list: seq<Download>) returns (merged: seq<Download>)
    ensures merged == AddAll(inputs, list)
  {
    merged := list;
    for i := 0 to |inputs|
      invariant AddAll(inputs[i..], merged) == AddAll(inputs, list)
    {
      assert inputs[i..][0] == inputs[i] && inputs[i..][1..] == inputs[i + 1..];
      merged := MergeDownload(inputs[i], merged);
    }
    assert inputs[|inputs|..] == [];
  }

  /** `dependencySatisfied`. */
  method DependencySatisfied(dep: Dep, installed: string, planned: seq<Download>) returns (good: Result<bool, Error>)
    ensures good == Satisfied(dep, installed, planned)
  {
    var version := installed;
    var i := 0;
    while i < |planned| && planned[i].name != dep.name
      invariant 0 <= i <= |planned|
      invariant PlannedVersion(planned[i..], dep.name, installed) == PlannedVersion(planned, dep.name, installed)
    {
      assert planned[i..][1..] == planned[i + 1..];
      i := i + 1;
    }
    if i < |planned| { version := planned[i].version; }
    if version == "" { return Ok(false); }
    if dep.version == "" { return Ok(true); }
    var checked := CheckVersion(dep.op, dep.version, version);
    if checked.Err? { return Err(Malformed(checked.error)); }
    return Ok(checked.value);
  }

  method FindItem(items: seq<Portal>, name: string) returns (found: Option<Portal>)
    ensures found == Find(items, name)
  {
    for i := 0 to |items|
      invariant Find(items[i..], name) == Find(items, name)
    {
      assert items[i..][0] == items[i] && items[i..][1..] == items[i + 1..];
      if items[i].name == name { return Some(items[i]); }
    }
    assert items[|items|..] == [];
    return None;
  }

  /** `resolveDepsWithPrefs`. */
  method ResolveDeps(c: Context, items: seq<Portal>, wasDep: bool, depth: nat, parents: seq<string>)
    returns (plan: Result<seq<Download>, Error>)
    ensures plan == Resolve(c, items, wasDep, depth, parents)
    decreases MAX_DEPTH + 1 - depth, 3
  {
    hide Choose, Plan;
    if depth > MAX_DEPTH { return Ok([]); }
    var list: seq<Download> := [];
    for i := 0 to |items|
      invariant ResolveItems(c, items, i, wasDep, depth, parents, list) == Resolve(c, items, wasDep, depth, parents)
    {
      if items[i].name in parents { continue; }
      var chosen := ChooseRelease(c, items, items[i], depth, parents);
      if chosen.Err? { return Err(chosen.error); }
      var next := PlanMod(c, items[i], chosen.value, wasDep, list);
      if next.Err? { return Err(next.error); }
      list := next.value;
    }
    return Ok(list);
  }

  /** What the chosen release adds to the plan, at the end of the loop over the mods. */
  method PlanMod(c: Context, item: Portal, choice: Choice, wasDep: bool, acc: seq<Download>)
    returns (plan: Result<seq<Download>, Error>)
    ensures plan == Plan(c, item, choice, wasDep, acc)
  {
    if Pin(c, item.name) != "" && !choice.resolved { return Err(PinUnresolved(item.name)); }
    if !wasDep && choice.rel.version == NO_VERSION { return Err(CannotInstall(item.name)); }
    var list := MergeAll(choice.deps, acc);
    if choice.rel.version != NO_VERSION && item.installed != choice.rel.version {
      list := MergeDownload(
        Download(item.name, item.title, choice.rel.file, item.installedFile, "", "", choice.rel, choice.rel.version,
                 item.installed, wasDep), list);
    }
    return Ok(list);
  }

  /** Whether a release comes into question, up to the look at its dependencies. */
  method AskRelease(c: Context, item: Portal, rel: Release, choice: Choice) returns (asked: Result<bool, Error>)
    ensures asked == InQuestion(c, item, rel, choice)
  {
    hide Pin, VersionToInt, MatchesGame;
    var pin := Pin(c, item.name);
    if pin != "" && rel.version != pin { return Ok(false); }
    if pin == "" && item.installed != "" {
      var newer := CheckVersion(Greater, item.installed, rel.version);
      if newer.Err? { return Err(Malformed(newer.error)); }
      if !newer.value { return Ok(false); }
    }
    var newer := CheckVersion(Greater, choice.rel.version, rel.version);
    if newer.Err? { return Err(Malformed(newer.error)); }
    return Ok((newer.value || pin != "") && MatchesGame(c.game, rel));
  }

  /** The loop over the releases of one mod. */
  method ChooseRelease(c: Context, items: seq<Portal>, item: Portal, depth: nat, parents: seq<string>)
    returns (chosen: Result<Choice, Error>)
    requires depth <= MAX_DEPTH
    ensures chosen == Choose(c, items, item, 0, depth, parents, Initially(item))
    decreases MAX_DEPTH + 1 - depth, 2
  {
    hide InQuestion, DepsOf;
    var candidate := Initially(item);
    for j := 0 to |item.releases|
      invariant Choose(c, items, item, j, depth, parents, candidate)
             == Choose(c, items, item, 0, depth, parents, Initially(item))
    {
      var rel := item.releases[j];
      var asked := AskRelease(c, item, rel, candidate);
      if asked.Err? { return Err(asked.error); }
      if !asked.value { continue; }
      var deps := ReleaseDeps(c, items, item, rel, depth, parents);
      if deps.Err? { return Err(deps.error); }
      if deps.value.Some? { candidate := Choice(rel, deps.value.value, true); }
    }
    return Ok(candidate);
  }

  /** The loop over the dependencies of one release. */
  method ReleaseDeps(c: Context, items: seq<Portal>, item: Portal, rel: Release, depth: nat, parents: seq<string>)
    returns (needed: Result<Option<seq<Download>>, Error>)
    requires depth <= MAX_DEPTH
    ensures needed == DepsOf(c, items, item, rel, 0, depth, parents, true, [])
    decreases MAX_DEPTH + 1 - depth, 1
  {
    hide ParseDep, BaseHolds, DepPlan, AddAll, AllRequiredFor, IsBaseMod;
    var met := true;
    var list: seq<Download> := [];
    for k := 0 to |rel.deps|
      invariant DepsOf(c, items, item, rel, k, depth, parents, met, list)
             == DepsOf(c, items, item, rel, 0, depth, parents, true, [])
    {
      var dep := ParseDep(rel.deps[k]);
      if dep.incompatible || dep.optional { continue; }
      if IsBaseMod(dep.name) {
        if !BaseHolds(c.game, dep) { met := false; }
        continue;
      }
      var dl := SearchDep(c, items, item, dep, depth, parents);
      if dl.Err? { return Err(dl.error); }
      if dl.value.None? {
        met := false;
        continue;
      }
      list := MergeAll(AllRequiredFor(dl.value.value, item, rel), list);
    }
    return Ok(if met then Some(list) else None);
  }

  /** The search for one dependency that is not a built-in mod. */
  method SearchDep(c: Context, items: seq<Portal>, item: Portal, dep: Dep, depth: nat, parents: seq<string>)
    returns (dl: Result<Option<seq<Download>>, Error>)
    requires depth <= MAX_DEPTH
    ensures dl == DepPlan(c, items, item, dep, depth, parents)
    decreases MAX_DEPTH + 1 - depth, 0
  {
    hide Resolve, Satisfied, Find;
    var known := FindItem(items, dep.name);
    var portal;
    if known.Some? {
      portal := known.value;
    } else {
      var info := c.portal(dep.name);
      if info.Err? { return Err(info.error); }
      portal := info.value;
    }
    var plan := ResolveDeps(c, [portal], true, depth + 1, parents + [item.name]);
    if plan.Err? { return Err(plan.error); }
    var good := DependencySatisfied(dep, portal.installed, plan.value);
    if good.Err? { return Err(good.error); }
    return Ok(if good.value then Some(plan.value) else None);
  }

  // ------------------------------------------------------------------ the check

  /** The loops of `validateDownloadPlan` that collect the mods that will coexist. */
  method Collect(mods: seq<Installed>, plan: seq<Download>) returns (final: map<string, Final>)
    ensures final == FinalMods(mods, plan)
  {
    final := map[];
    for i := 0 to |mods|
      invariant final == EnabledMods(mods[..i])
    {
      assert mods[..i + 1][..i] == mods[..i];
      if mods[i].enabled { final := final[mods[i].name := Final(mods[i].version, mods[i].deps)]; }
    }
    assert mods[..|mods|] == mods;
    for i := 0 to |plan|
      invariant final == FinalMods(mods, plan[..i])
    {
      assert plan[..i + 1][..i] == plan[..i];
      final := final[plan[i].name := Final(plan[i].version, plan[i].data.deps)];
    }
    assert plan[..|plan|] == plan;
  }

  method CheckMod(game: string, final: map<string, Final>, deps: seq<string>) returns (verdict: Verdict)
    ensures verdict == Fine <==> forall i :: 0 <= i < |deps| ==> Holds(game, final, ParseDep(deps[i]))
    ensures verdict != Fine ==> exists i :: 0 <= i < |deps| && Judge(game, final, deps[i]) == verdict
  {
    hide ParseDep, Judge, Holds;
    for i := 0 to |deps|
      invariant forall j :: 0 <= j < i ==> Holds(game, final, ParseDep(deps[j]))
    {
      JudgeIsHolds(game, final, deps[i]);
      var v := Judge(game, final, deps[i]);
      if v != Fine { return v; }
    }
    return Fine;
  }

  /** `validateDownloadPlan`: a plan passes exactly when every dependency of every mod that
      will be enabled holds in the versions that will coexist, whether the mod is updated,
      newly planned or stays as it is. The mods are looked at in some order; it decides
      which of several failures is reported. */
  method ValidateDownloadPlan(game: string, mods: seq<Installed>, plan: seq<Download>) returns (verdict: Verdict)
    ensures verdict == Fine <==>
      forall name :: name in FinalMods(mods, plan) ==>
        forall i :: 0 <= i < |FinalMods(mods, plan)[name].deps| ==>
          Holds(game, FinalMods(mods, plan), ParseDep(FinalMods(mods, plan)[name].deps[i]))
  {
    hide ParseDep, Holds, Judge, FinalMods;
    var final := Collect(mods, plan);
    var names := final.Keys;
    while names != {}
      invariant names <= final.Keys
      invariant forall name :: name in final && name !in names ==>
        forall i :: 0 <= i < |final[name].deps| ==> Holds(game, final, ParseDep(final[name].deps[i]))
      decreases names
    {
      var name :| name in names;
      var v := CheckMod(game, final, final[name].deps);
      if v != Fine { return v; }
      names := names - {name};
    }
    return Fine;
  }
}
