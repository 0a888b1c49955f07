/** `SetBuiltinModEnabled` and its validator in the form the program has: a recursive closure
    that updates the mod list and the set of mods it has seen, and loops
    (`modupdate/builtin.go`). */
module BuiltinStore {
  import opened Wrappers
  import opened Versions
  import opened ModDeps
  import opened BuiltinMods
  import opened BuiltinTheorems

  /** The variables the closure captures. */
  class Switcher {
    var mods: seq<Mod>
    var seen: set<string>

    constructor (list: seq<Mod>)
      ensures mods == list && seen == {}
    {
      mods, seen := list, {};
    }

    ghost function S(): State
      reads this
    {
      State(mods, seen)
    }

    /** One entry is switched, or added. */
    method SwitchEntry(name: string, value: bool)
      modifies `mods
      ensures mods == Switched(old(mods), name, value)
    {
      var i := 0;
      while i < |mods| && mods[i].name != name
        invariant 0 <= i <= |mods| && forall j :: 0 <= j < i ==> mods[j].name != name
      {
        i := i + 1;
      }
      if i == |mods| {
        assert IndexOf(mods, name) == i;
        mods := mods + [Mod(name, value)];
      } else {
        FirstIndex(mods, name, i);
        mods := mods[i := Mod(name, value)];
      }
    }

    /** Whether the list says that a recommended mod is disabled. */
    method Skips(name: string) returns (skip: bool)
      ensures skip <==> Disabled(mods, name)
    {
      skip := false;
      for i := 0 to |mods|
        invariant skip <==> exists j :: 0 <= j < i && mods[j].name == name && !mods[j].enabled
      {
        if mods[i].name == name && !mods[i].enabled { skip := true; }
      }
    }

    /** The closure, for switching on. */
    method Enable(bundle: Bundle, name: string) returns (error: Option<Error>)
      requires name in bundle
      modifies this
      ensures Outcome(S(), error) == BuiltinMods.Enable(bundle, old(S()), name)
      decreases |bundle.Keys - seen|, 1
    {
      if name in seen { return None; }
      Smaller(bundle.Keys, seen, name);
      seen := seen + {name};
      SwitchEntry(name, true);
      error := EnableDeps(bundle, name);
    }

    /** Its loop over the dependencies of one mod. */
    method EnableDeps(bundle: Bundle, name: string) returns (error: Option<Error>)
      requires name in bundle
      modifies this
      ensures Outcome(S(), error) == BuiltinMods.EnableDeps(bundle, old(S()), name, 0)
      ensures old(seen) <= seen
      decreases |bundle.Keys - seen|, 2
    {
      hide BundledDep, IsRecommended, Disabled;
      for k := 0 to |bundle[name].deps|
        invariant BuiltinMods.EnableDeps(bundle, S(), name, k) == BuiltinMods.EnableDeps(bundle, old(S()), name, 0)
        invariant old(seen) <= seen
      {
        FewerLeft(bundle.Keys, old(seen), seen);
        var raw := bundle[name].deps[k];
        var dep := BundledDep(raw);
        if dep.optional || dep.incompatible { continue; }
        if IsRecommended(raw) {
          var skip := Skips(dep.name);
          if skip { continue; }
        }
        if dep.name !in bundle { return Some(Unavailable(name, dep.name)); }
        var failed := Enable(bundle, dep.name);
        if failed.Some? { return failed; }
      }
      return None;
    }
  }

  /** `SetBuiltinModEnabled`: the caller's list stays as it is, the closure works on a copy. */
  method SetBuiltinModEnabled(bundle: Bundle, list: seq<Mod>, name: string, enabled: bool)
    returns (result: Result<seq<Mod>, Error>)
    ensures result == SetEnabled(bundle, list, name, enabled)
  {
    if name !in bundle { return Err(NotInstalled(name)); }
    if name == "base" && !enabled { return Err(BaseIsRequired); }
    var s := new Switcher(list);
    if !enabled {
      s.SwitchEntry(name, false);
      return Ok(s.mods);
    }
    var error := s.Enable(bundle, name);
    if error.Some? { return Err(error.value); }
    return Ok(s.mods);
  }

  /** The map of enabled mods the validator makes: every bundled one, then the list. */
  method EnabledMap(bundle: Bundle, list: seq<Mod>) returns (on: map<string, bool>)
    ensures forall name :: (name in on && on[name]) <==> IsOn(bundle, list, name)
  {
    on := map name | name in bundle :: true;
    for i := 0 to |list|
      invariant forall name :: (name in on && on[name]) <==> IsOn(bundle, list[..i], name)
    {
      assert list[..i + 1][..i] == list[..i];
      on := on[list[i].name := list[i].enabled];
    }
    assert list[..|list|] == list;
  }

  /** Whether one dependency of an enabled mod is met. */
  predicate DepMet(bundle: Bundle, list: seq<Mod>, raw: string)
  {
    IsRequired(raw) ==> ParseDep(raw).name in bundle && IsOn(bundle, list, ParseDep(raw).name) && VersionFits(bundle, raw)
  }

  method CheckDeps(bundle: Bundle, list: seq<Mod>, on: map<string, bool>, deps: seq<string>) returns (ok: bool)
    requires forall name :: (name in on && on[name]) <==> IsOn(bundle, list, name)
    ensures ok <==> forall k :: 0 <= k < |deps| ==> DepMet(bundle, list, deps[k])
  {
    hide IsRecommended, IsOn, ParseDep, CheckVersion;
    for k := 0 to |deps|
      invariant forall j :: 0 <= j < k ==> DepMet(bundle, list, deps[j])
    {
      var raw := deps[k];
      if IsRecommended(raw) { continue; }
      var dep := ParseDep(raw);
      if dep.optional || dep.incompatible { continue; }
      if dep.name !in bundle || !(dep.name in on && on[dep.name]) { return false; }
      if dep.version != "" {
        var good := CheckVersion(dep.op, dep.version, bundle[dep.name].version);
        if good.Err? || !good.value { return false; }
      }
    }
    return true;
  }

  /** `ValidateBuiltinModDependencies`. */
  method ValidateBuiltinModDependencies(bundle: Bundle, list: seq<Mod>) returns (ok: bool)
    ensures ok <==> Valid(bundle, list)
  {
    hide IsRequired, IsOn, ParseDep, VersionFits;
    var on := EnabledMap(bundle, list);
    var rest := bundle.Keys;
    while rest != {}
      invariant rest <= bundle.Keys
      invariant forall m, k :: m in bundle && m !in rest && IsOn(bundle, list, m) && 0 <= k < |bundle[m].deps| ==>
        DepMet(bundle, list, bundle[m].deps[k])
      decreases rest
    {
      var m :| m in rest;
      if m in on && on[m] {
        var good := CheckDeps(bundle, list, on, bundle[m].deps);
        if !good { return false; }
      }
      rest := rest - {m};
    }
    return true;
  }
}
