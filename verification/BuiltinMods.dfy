/** Enabling a built-in mod together with what it needs (`modupdate/builtin.go`): a search
    through the dependencies that marks what it has seen, and changes the mod list as it
    goes. */
module BuiltinMods {
  import opened Wrappers
  import opened Sets
  import opened Versions
  import opened ModDeps

  datatype Mod = Mod(name: string, enabled: bool)

  /** A bundled mod: its version and its dependency strings. */
  datatype Bundled = Bundled(version: string, deps: seq<string>)

  type Bundle = map<string, Bundled>

  datatype Error = NotInstalled(mod: string) | BaseIsRequired | Unavailable(mod: string, dep: string)

  // ------------------------------------------------------------------------ lists

  /** The first entry of a name; `|list|` when there is none. */
  function IndexOf(list: seq<Mod>, name: string): (i: nat)
    ensures i <= |list|
    ensures i < |list| ==> list[i].name == name
    ensures forall j :: 0 <= j < i ==> list[j].name != name
  {
    if list == [] || list[0].name == name then 0 else IndexOf(list[1..], name) + 1
  }

  /** One entry switched on or off, or added. */
  function Switched(list: seq<Mod>, name: string, value: bool): seq<Mod>
  {
    var i := IndexOf(list, name);
    if i == |list| then list + [Mod(name, value)] else list[i := Mod(name, value)]
  }

  predicate Disabled(list: seq<Mod>, name: string)
  {
    exists i :: 0 <= i < |list| && list[i].name == name && !list[i].enabled
  }

  // ------------------------------------------------------------------ dependencies

  predicate IsRecommended(raw: string)
  {
    "+" <= Trim(raw)
  }

  /** The dependency without its recommendation mark. */
  function BundledDep(raw: string): Dep
  {
    ParseDep(Trim(TrimPrefix(Trim(raw), "+")))
  }

  /** Whether the search follows a dependency: a required one always, a recommended one
      unless the list says that the mod is disabled. */
  predicate Followed(raw: string, list: seq<Mod>)
  {
    var dep := BundledDep(raw);
    !dep.optional && !dep.incompatible && (IsRecommended(raw) ==> !Disabled(list, dep.name))
  }

  // ------------------------------------------------------------------- the search

  /** The list, and the mods already switched. */
  datatype State = State(list: seq<Mod>, seen: set<string>)

  datatype Outcome = Outcome(state: State, error: Option<Error>)

  /** The recursive closure inside `SetBuiltinModEnabled`, for switching on. */
  function Enable(bundle: Bundle, s: State, name: string): (r: Outcome)
    requires name in bundle
    ensures s.seen <= r.state.seen && (s.seen <= bundle.Keys ==> r.state.seen <= bundle.Keys)
    decreases |bundle.Keys - s.seen|, 1, 0
  {
    if name in s.seen then Outcome(s, None)
    else
      var next := State(Switched(s.list, name, true), s.seen + {name});
      Smaller(bundle.Keys, s.seen, name);
      EnableDeps(bundle, next, name, 0)
  }

  function EnableDeps(bundle: Bundle, s: State, name: string, k: nat): (r: Outcome)
    requires name in bundle && k <= |bundle[name].deps|
    ensures s.seen <= r.state.seen && (s.seen <= bundle.Keys ==> r.state.seen <= bundle.Keys)
    decreases |bundle.Keys - s.seen|, 2, |bundle[name].deps| - k
  {
    if k == |bundle[name].deps| then Outcome(s, None)
    else
      var raw := bundle[name].deps[k];
      var dep := BundledDep(raw);
      if !Followed(raw, s.list) then EnableDeps(bundle, s, name, k + 1)
      else if dep.name !in bundle then Outcome(s, Some(Unavailable(name, dep.name)))
      else
        var r := Enable(bundle, s, dep.name);
        if r.error.Some? then r
        else
          FewerLeft(bundle.Keys, s.seen, r.state.seen);
          EnableDeps(bundle, r.state, name, k + 1)
  }

  lemma Smaller(all: set<string>, seen: set<string>, name: string)
    requires name in all && name !in seen
    ensures |all - (seen + {name})| < |all - seen|
  {
    assert all - seen == (all - (seen + {name})) + {name};
  }

  lemma FewerLeft(all: set<string>, seen: set<string>, more: set<string>)
    requires seen <= more
    ensures |all - more| <= |all - seen|
  {
    SubsetSize(all - more, all - seen);
  }

  /** `SetBuiltinModEnabled`. */
  function SetEnabled(bundle: Bundle, list: seq<Mod>, name: string, enabled: bool): Result<seq<Mod>, Error>
  {
    if name !in bundle then Err(NotInstalled(name))
    else if name == "base" && !enabled then Err(BaseIsRequired)
    else if !enabled then Ok(Switched(list, name, false))
    else
      var r := Enable(bundle, State(list, {}), name);
      if r.error.Some? then Err(r.error.value) else Ok(r.state.list)
  }
}
