/** Resolution of mod updates and their dependencies (`modupdate/newUpdate.go`): a search
    over releases that recurs into dependencies to a bounded depth, the merge of planned
    downloads, and the final check of the plan. The mod portal is a function from names to
    what it knows of a mod; what it answers is cached during a check, so it is one. */
module ModResolve {
  import opened Wrappers
  import opened Versions
  import opened ModDeps

  const MAX_DEPTH: nat := 10
  const NO_VERSION := "0.0.0"

  datatype Release = Release(version: string, file: string, factorio: string, deps: seq<string>)

  /** What the portal knows of a mod, and what is installed of it. */
  datatype Portal = Portal(name: string, title: string, releases: seq<Release>, installed: string, installedFile: string)

  datatype Download = Download(
    name: string, title: string, file: string, oldFile: string, requiredBy: string, requiredByVersion: string,
    data: Release, version: string, oldVersion: string, wasDep: bool)

  datatype Error = Malformed(error: VersionError) | NoSuchMod | PinUnresolved(mod: string) | CannotInstall(mod: string)

  /** The game's version, the pinned versions and the portal. */
  datatype Context = Context(game: string, pins: seq<(string, string)>, portal: string -> Result<Portal, Error>)

  // -------------------------------------------------------------------- versions

  function LowerChar(c: char): char
  {
    if 'A' <= c <= 'Z' then (c as int + 32) as char else c
  }

  /** `strings.EqualFold`, on ASCII letters. */
  predicate EqualFold(a: string, b: string)
  {
    |a| == |b| && forall i :: 0 <= i < |a| ==> LowerChar(a[i]) == LowerChar(b[i])
  }

  /** `modedit.GetVersion`. */
  function GetVersion(pins: seq<(string, string)>, name: string): string
  {
    if pins == [] then "" else if EqualFold(pins[0].0, name) then pins[0].1 else GetVersion(pins[1..], name)
  }

  /** The version a mod is pinned to; "auto" is no pin. */
  function Pin(c: Context, name: string): string
  {
    var v := GetVersion(c.pins, name);
    if EqualFold(v, "auto") then "" else v
  }

  /** `releaseMatchesFactorioVersion`. */
  predicate MatchesGame(game: string, rel: Release)
  {
    var mod, own := Trim(rel.factorio), Trim(game);
    || mod == "" || own == "" || EqualFold(own, "unknown")
    || (Parses(mod) && !Parses(own))
    || (Parses(mod) && Parses(own) && VersionToInt(mod).value.major == VersionToInt(own).value.major
        && VersionToInt(mod).value.minor == VersionToInt(own).value.minor)
  }

  // ----------------------------------------------------------------------- merging

  /** `addDownload`: a newer download replaces the one of the same name. */
  function AddDownload(d: Download, list: seq<Download>): seq<Download>
  {
    if list == [] then [d]
    else if list[0].name == d.name then
      if Newer(list[0].data.version, d.data.version) then [d] + list[1..] else list
    else [list[0]] + AddDownload(d, list[1..])
  }

  function AddAll(ds: seq<Download>, list: seq<Download>): seq<Download>
    decreases |ds|
  {
    if ds == [] then list else AddAll(ds[1..], AddDownload(ds[0], list))
  }

  // ------------------------------------------------------------------- resolution

  function PlannedVersion(planned: seq<Download>, name: string, installed: string): string
  {
    if planned == [] then installed
    else if planned[0].name == name then planned[0].version
    else PlannedVersion(planned[1..], name, installed)
  }

  /** `dependencySatisfied`. */
  function Satisfied(dep: Dep, installed: string, planned: seq<Download>): Result<bool, Error>
  {
    var version := PlannedVersion(planned, dep.name, installed);
    if version == "" then Ok(false)
    else if dep.version == "" then Ok(true)
    else
      match CheckVersion(dep.op, dep.version, version)
      case Ok(b) => Ok(b)
      case Err(e) => Err(Malformed(e))
  }

  function Find(items: seq<Portal>, name: string): Option<Portal>
  {
    if items == [] then None else if items[0].name == name then Some(items[0]) else Find(items[1..], name)
  }

  /** The candidate of a mod while its releases are gone through. */
  datatype Choice = Choice(rel: Release, deps: seq<Download>, resolved: bool)

  function Initially(item: Portal): Choice
  {
    Choice(Release(if item.installed != "" then item.installed else NO_VERSION, "", "", []), [], false)
  }

  function RequiredFor(d: Download, item: Portal, rel: Release): Download
  {
    if d.requiredBy == "" then d.(requiredBy := item.name, requiredByVersion := rel.version) else d
  }

  function AllRequiredFor(ds: seq<Download>, item: Portal, rel: Release): seq<Download>
  {
    seq(|ds|, i requires 0 <= i < |ds| => RequiredFor(ds[i], item, rel))
  }

  /** Whether a required dependency on a built-in mod holds; a bad version counts as no. */
  predicate BaseHolds(game: string, dep: Dep)
  {
    dep.version == "" || CheckVersion(dep.op, dep.version, game) == Ok(true)
  }

  /** `resolveDepsWithPrefs`. */
  function Resolve(c: Context, items: seq<Portal>, wasDep: bool, depth: nat, parents: seq<string>)
    : Result<seq<Download>, Error>
    decreases MAX_DEPTH + 1 - depth, 3, 0
  {
    if depth > MAX_DEPTH then Ok([]) else ResolveItems(c, items, 0, wasDep, depth, parents, [])
  }

  /** Its loop over the mods. */
  function ResolveItems(
      c: Context, items: seq<Portal>, i: nat, wasDep: bool, depth: nat, parents: seq<string>, acc: seq<Download>)
    : Result<seq<Download>, Error>
    requires i <= |items| && depth <= MAX_DEPTH
    decreases MAX_DEPTH + 1 - depth, 2, |items| - i
  {
    if i == |items| then Ok(acc)
    else if items[i].name in parents then ResolveItems(c, items, i + 1, wasDep, depth, parents, acc)
    else
      match Choose(c, items, items[i], 0, depth, parents, Initially(items[i]))
      case Err(e) => Err(e)
      case Ok(choice) =>
        match Plan(c, items[i], choice, wasDep, acc)
        case Err(e) => Err(e)
        case Ok(list) => ResolveItems(c, items, i + 1, wasDep, depth, parents, list)
  }

  /** What the chosen release of one mod adds to the plan. */
  function Plan(c: Context, item: Portal, choice: Choice, wasDep: bool, acc: seq<Download>): Result<seq<Download>, Error>
  {
    if Pin(c, item.name) != "" && !choice.resolved then Err(PinUnresolved(item.name))
    else if !wasDep && choice.rel.version == NO_VERSION then Err(CannotInstall(item.name))
    else
      var list := AddAll(choice.deps, acc);
      if choice.rel.version != NO_VERSION && item.installed != choice.rel.version then
        Ok(AddDownload(
          Download(item.name, item.title, choice.rel.file, item.installedFile, "", "", choice.rel, choice.rel.version,
                   item.installed, wasDep), list))
      else Ok(list)
  }

  /** Whether a release comes into question before its dependencies are looked at: the pinned
      one, or one newer than what is installed and than the candidate. */
  function InQuestion(c: Context, item: Portal, rel: Release, choice: Choice): Result<bool, Error>
  {
    var pin := Pin(c, item.name);
    if pin != "" && rel.version != pin then Ok(false)
    else if pin == "" && item.installed != "" && CheckVersion(Greater, item.installed, rel.version).Err? then
      Err(Malformed(CheckVersion(Greater, item.installed, rel.version).error))
    else if pin == "" && item.installed != "" && !Newer(item.installed, rel.version) then Ok(false)
    else
      match CheckVersion(Greater, choice.rel.version, rel.version)
      case Err(e) => Err(Malformed(e))
      case Ok(newer) => Ok((newer || pin != "") && MatchesGame(c.game, rel))
  }

  /** The loop over the releases of one mod. */
  function Choose(
      c: Context, items: seq<Portal>, item: Portal, j: nat, depth: nat, parents: seq<string>, choice: Choice)
    : Result<Choice, Error>
    requires j <= |item.releases| && depth <= MAX_DEPTH
    decreases MAX_DEPTH + 1 - depth, 1, |item.releases| - j
  {
    if j == |item.releases| then Ok(choice)
    else
      var rel := item.releases[j];
      match InQuestion(c, item, rel, choice)
      case Err(e) => Err(e)
      case Ok(false) => Choose(c, items, item, j + 1, depth, parents, choice)
      case Ok(true) =>
        match DepsOf(c, items, item, rel, 0, depth, parents, true, [])
        case Err(e) => Err(e)
        case Ok(None) => Choose(c, items, item, j + 1, depth, parents, choice)
        case Ok(Some(deps)) => Choose(c, items, item, j + 1, depth, parents, Choice(rel, deps, true))
  }

  /** The loop over the dependencies of one release: what has to be downloaded for them, or
      nothing when one of them cannot be met. */
  function DepsOf(
      c: Context, items: seq<Portal>, item: Portal, rel: Release, k: nat, depth: nat, parents: seq<string>,
      met: bool, acc: seq<Download>)
    : Result<Option<seq<Download>>, Error>
    requires k <= |rel.deps| && depth <= MAX_DEPTH
    decreases MAX_DEPTH + 1 - depth, 0, |rel.deps| - k
  {
    if k == |rel.deps| then Ok(if met then Some(acc) else None)
    else
      var dep := ParseDep(rel.deps[k]);
      if dep.incompatible || dep.optional then DepsOf(c, items, item, rel, k + 1, depth, parents, met, acc)
      else if IsBaseMod(dep.name) then
        DepsOf(c, items, item, rel, k + 1, depth, parents, met && BaseHolds(c.game, dep), acc)
      else
        match DepPlan(c, items, item, dep, depth, parents)
        case Err(e) => Err(e)
        case Ok(None) => DepsOf(c, items, item, rel, k + 1, depth, parents, false, acc)
        case Ok(Some(dl)) =>
          DepsOf(c, items, item, rel, k + 1, depth, parents, met, AddAll(AllRequiredFor(dl, item, rel), acc))
  }

  /** The search for one dependency, and whether what it found satisfies it. */
  function DepPlan(c: Context, items: seq<Portal>, item: Portal, dep: Dep, depth: nat, parents: seq<string>)
    : Result<Option<seq<Download>>, Error>
    requires depth <= MAX_DEPTH
    decreases MAX_DEPTH + 1 - depth, 0, 0
  {
    var known := if Find(items, dep.name).Some? then Ok(Find(items, dep.name).value) else c.portal(dep.name);
    match known
    case Err(e) => Err(e)
    case Ok(portal) =>
      match Resolve(c, [portal], true, depth + 1, parents + [item.name])
      case Err(e) => Err(e)
      case Ok(dl) =>
        match Satisfied(dep, portal.installed, dl)
        case Err(e) => Err(e)
        case Ok(good) => Ok(if good then Some(dl) else None)
  }

  // -------------------------------------------------------------------- the check

  /** A mod as it will be: its version and its dependencies. */
  datatype Final = Final(version: string, deps: seq<string>)

  datatype Installed = Installed(name: string, version: string, deps: seq<string>, enabled: bool)

  function EnabledMods(mods: seq<Installed>): map<string, Final>
  {
    if mods == [] then map[]
    else
      var before := EnabledMods(mods[..|mods| - 1]);
      var m := mods[|mods| - 1];
      if m.enabled then before[m.name := Final(m.version, m.deps)] else before
  }

  /** The mods that will coexist after the update. */
  function FinalMods(mods: seq<Installed>, plan: seq<Download>): map<string, Final>
  {
    if plan == [] then EnabledMods(mods)
    else
      var d := plan[|plan| - 1];
      FinalMods(mods, plan[..|plan| - 1])[d.name := Final(d.version, d.data.deps)]
  }

  function VersionOf(game: string, final: map<string, Final>, name: string): string
  {
    if name == "base" then game else if name in final then final[name].version else ""
  }

  predicate Present(version: string)
  {
    version != "" && version != NO_VERSION
  }

  datatype Verdict = Fine | BadVersions | Clashes | Unmet

  /** One dependency of the plan, as `validateDownloadPlan` judges it. */
  function Judge(game: string, final: map<string, Final>, raw: string): Verdict
  {
    var dep := ParseDep(raw);
    var version := VersionOf(game, final, dep.name);
    if !Present(version) then if dep.optional || dep.incompatible then Fine else Unmet
    else if dep.version == "" then if dep.incompatible then Clashes else Fine
    else
      match CheckVersion(dep.op, dep.version, version)
      case Err(_) => BadVersions
      case Ok(matches) => if dep.incompatible then (if matches then Clashes else Fine) else if matches then Fine else Unmet
  }
}
