/** Configuration files in the form the program has: loops over maps in whatever order they
    are iterated, a file and a remembered baseline that are replaced
    (`cfg/web_settings.go`). */
module ConfigStore {
  import opened Wrappers
  import opened Sets
  import opened Dotted
  import opened ConfigTree
  import opened ConfigFlatten
  import opened ConfigMerge

  // ----------------------------------------------------------------------- flatten

  lemma NothingFlattened(prefix: string, before: Flat)
    ensures Flattened(map[], prefix, before, before)
  {
  }

  lemma LeafAtOfKid(o: Object, k: string, t: Tree, q: Path)
    ensures LeafAt(o[k := t], q) ==
      if q == [] then None
      else if q[0] != k then LeafAt(o, q)
      else match t
        case Leaf(v) => if |q| == 1 then Some(v) else None
        case Node(kids) => LeafAt(kids, q[1..])
  {
  }

  /** The leaf keys of an object with one more leaf. */
  lemma LeafAdds(o: Object, prefix: string, k: string, x: Value, key: string, v: Value)
    requires k !in o
    ensures var own := if prefix == "" then k else prefix + "." + k;
      IsLeafKey(o[k := Leaf(x)], prefix, key, v) <==> IsLeafKey(o, prefix, key, v) || (key == own && v == x)
  {
    var o' := o[k := Leaf(x)];
    var own := if prefix == "" then k else prefix + "." + k;
    if IsLeafKey(o', prefix, key, v) {
      var q: Path :| q != [] && LeafAt(o', q) == Some(v) && Under(prefix, q) == key;
      LeafAtOfKid(o, k, Leaf(x), q);
    }
    if IsLeafKey(o, prefix, key, v) {
      var q: Path :| q != [] && LeafAt(o, q) == Some(v) && Under(prefix, q) == key;
      LeafAtOfKid(o, k, Leaf(x), q);
      assert LeafAt(o', q) == Some(v);
    }
    assert LeafAt(o', [k]) == Some(x) && Under(prefix, [k]) == own;
  }

  /** The leaf keys of an object with one more object in it. */
  lemma NodeAdds(o: Object, prefix: string, k: string, kids: Object, key: string, v: Value)
    requires k !in o
    ensures var own := if prefix == "" then k else prefix + "." + k;
      IsLeafKey(o[k := Node(kids)], prefix, key, v) <==> IsLeafKey(o, prefix, key, v) || IsLeafKey(kids, own, key, v)
  {
    var o' := o[k := Node(kids)];
    var own := if prefix == "" then k else prefix + "." + k;
    if IsLeafKey(o', prefix, key, v) {
      var q: Path :| q != [] && LeafAt(o', q) == Some(v) && Under(prefix, q) == key;
      LeafAtOfKid(o, k, Node(kids), q);
      if q[0] == k {
        assert LeafAt(kids, q[1..]) == Some(v) && q[1..] != [] && Under(own, q[1..]) == key;
      }
    }
    if IsLeafKey(o, prefix, key, v) {
      var q: Path :| q != [] && LeafAt(o, q) == Some(v) && Under(prefix, q) == key;
      LeafAtOfKid(o, k, Node(kids), q);
      assert LeafAt(o', q) == Some(v);
    }
    if IsLeafKey(kids, own, key, v) {
      var q: Path :| q != [] && LeafAt(kids, q) == Some(v) && Under(own, q) == key;
      var p := [k] + q;
      assert p[1..] == q && Under(prefix, p) == key;
      LeafAtOfKid(o, k, Node(kids), p);
      assert LeafAt(o', p) == Some(v);
    }
  }

  /** The same relation in terms of leaf keys alone. */
  ghost predicate FlattenedKeys(o: Object, prefix: string, before: Flat, after: Flat)
  {
    && (forall key, v :: IsLeafKey(o, prefix, key, v) ==> key in after)
    && (forall key :: key in before ==> key in after)
    && (forall key :: key in after ==>
          || IsLeafKey(o, prefix, key, after[key])
          || (key in before && after[key] == before[key] && forall v :: !IsLeafKey(o, prefix, key, v)))
  }

  lemma ByKeys(o: Object, prefix: string, before: Flat, after: Flat)
    ensures Flattened(o, prefix, before, after) <==> FlattenedKeys(o, prefix, before, after)
  {
    if FlattenedKeys(o, prefix, before, after) {
      forall q | LeafAt(o, q).Some? ensures q != [] && Under(prefix, q) in after {
        assert IsLeafKey(o, prefix, Under(prefix, q), LeafAt(o, q).value);
      }
    }
  }

  lemma KeysWithLeaf(o: Object, p: Object, prefix: string, own: string, x: Value, before: Flat, after: Flat)
    requires FlattenedKeys(o, prefix, before, after)
    requires forall key, v :: IsLeafKey(p, prefix, key, v) <==> IsLeafKey(o, prefix, key, v) || (key == own && v == x)
    ensures FlattenedKeys(p, prefix, before, after[own := x])
  {
    hide IsLeafKey;
  }

  lemma KeysWithNode(o: Object, p: Object, kids: Object, prefix: string, own: string, before: Flat, mid: Flat, after: Flat)
    requires FlattenedKeys(o, prefix, before, mid) && FlattenedKeys(kids, own, mid, after)
    requires forall key, v :: IsLeafKey(p, prefix, key, v) <==> IsLeafKey(o, prefix, key, v) || IsLeafKey(kids, own, key, v)
    ensures FlattenedKeys(p, prefix, before, after)
  {
    hide IsLeafKey;
  }

  lemma AddLeaf(o: Object, prefix: string, k: string, x: Value, before: Flat, after: Flat)
    requires k !in o && Flattened(o, prefix, before, after)
    ensures var own := if prefix == "" then k else prefix + "." + k;
      Flattened(o[k := Leaf(x)], prefix, before, after[own := x])
  {
    hide IsLeafKey, Flattened, FlattenedKeys;
    var own := if prefix == "" then k else prefix + "." + k;
    var p := o[k := Leaf(x)];
    ByKeys(o, prefix, before, after);
    ByKeys(p, prefix, before, after[own := x]);
    forall key, v
      ensures IsLeafKey(p, prefix, key, v) <==> IsLeafKey(o, prefix, key, v) || (key == own && v == x)
    {
      LeafAdds(o, prefix, k, x, key, v);
    }
    KeysWithLeaf(o, p, prefix, own, x, before, after);
  }

  lemma AddNode(o: Object, prefix: string, k: string, kids: Object, before: Flat, mid: Flat, after: Flat)
    requires k !in o && Flattened(o, prefix, before, mid)
    requires Flattened(kids, if prefix == "" then k else prefix + "." + k, mid, after)
    ensures Flattened(o[k := Node(kids)], prefix, before, after)
  {
    hide IsLeafKey, Flattened, FlattenedKeys;
    var own := if prefix == "" then k else prefix + "." + k;
    var p := o[k := Node(kids)];
    ByKeys(o, prefix, before, mid);
    ByKeys(kids, own, mid, after);
    ByKeys(p, prefix, before, after);
    forall key, v
      ensures IsLeafKey(p, prefix, key, v) <==> IsLeafKey(o, prefix, key, v) || IsLeafKey(kids, own, key, v)
    {
      NodeAdds(o, prefix, k, kids, key, v);
    }
    KeysWithNode(o, p, kids, prefix, own, before, mid, after);
  }

  /** `flatten`. */
  method Flatten(o: Object, prefix: string, before: Flat) returns (after: Flat)
    ensures Flattened(o, prefix, before, after)
    decreases Node(o)
  {
    after := before;
    var rest := o.Keys;
    ghost var seen: Object := map[];
    NothingFlattened(prefix, before);
    while rest != {}
      invariant rest <= o.Keys
      invariant seen == map k | k in o && k !in rest :: o[k]
      invariant Flattened(seen, prefix, before, after)
      decreases rest
    {
      hide Flattened;
      var k :| k in rest;
      var key := if prefix == "" then k else prefix + "." + k;
      match o[k] {
        case Node(kids) =>
          var more := Flatten(kids, key, after);
          AddNode(seen, prefix, k, kids, before, after, more);
          after := more;
        case Leaf(x) =>
          AddLeaf(seen, prefix, k, x, before, after);
          after := after[key := x];
      }
      seen := seen[k := o[k]];
      rest := rest - {k};
    }
    assert seen == o;
  }

  // --------------------------------------------------------------------- unflatten

  lemma {:induction false} UnflattenOneMore(values: Flat, order: seq<string>, o: Object, key: string)
    requires (forall k :: k in order ==> k in values) && key in values
    requires Unflatten(values, order, o).Some?
    ensures Unflatten(values, order + [key], o) == Insert(Unflatten(values, order, o).value, Split(key), values[key])
    decreases |order|
  {
    if order == [] {
      assert [] + [key] == [key] && [key][1..] == [];
    } else {
      assert (order + [key])[0] == order[0] && (order + [key])[1..] == order[1..] + [key];
      UnflattenOneMore(values, order[1..], Insert(o, Split(order[0]), values[order[0]]).value, key);
    }
  }

  lemma {:induction false} FailureIsFinal(values: Flat, order: seq<string>, more: seq<string>, o: Object)
    requires forall k :: k in order + more ==> k in values
    requires Unflatten(values, order, o).None?
    ensures Unflatten(values, order + more, o).None?
    decreases |order|
  {
    assert order != [];
    assert forall k :: k in order ==> k in order + more;
    assert (order + more)[0] == order[0] && (order + more)[1..] == order[1..] + more;
    if Insert(o, Split(order[0]), values[order[0]]).Some? {
      FailureIsFinal(values, order[1..], more, Insert(o, Split(order[0]), values[order[0]]).value);
    }
  }

  lemma OrdersJoin(a: seq<string>, some: set<string>, b: seq<string>, others: set<string>)
    requires IsOrder(a, some) && IsOrder(b, others) && some !! others
    ensures IsOrder(a + b, some + others)
  {
    var s := a + b;
    forall i, j | 0 <= i < j < |s| ensures s[i] != s[j] {
      if i < |a| <= j { assert s[i] in some && s[j] in others; }
    }
  }

  /** `unflatten`, over the keys in whatever order they come; `None` is the panic of a failed
      type assertion. */
  method UnflattenValues(values: Flat) returns (o: Option<Object>, ghost order: seq<string>)
    ensures IsOrder(order, values.Keys) && o == Unflatten(values, order, map[])
    ensures PrefixFree(values.Keys) ==> o.Some? && Represents(o.value, values, values.Keys)
  {
    hide PrefixFree, Represents, Insert;
    var out: Object := map[];
    order := [];
    var rest := values.Keys;
    while rest != {}
      invariant rest <= values.Keys && IsOrder(order, values.Keys - rest)
      invariant Unflatten(values, order, map[]) == Some(out)
      decreases rest
    {
      var key :| key in rest;
      var next := Insert(out, Split(key), values[key]);
      UnflattenOneMore(values, order, map[], key);
      order := order + [key];
      rest := rest - {key};
      if next.None? {
        var more := SomeOrder(rest);
        FailureIsFinal(values, order, more, map[]);
        OrdersJoin(order, values.Keys - rest, more, rest);
        assert (values.Keys - rest) + rest == values.Keys;
        if PrefixFree(values.Keys) { UnflattenAll(values, order + more); }
        return None, order + more;
      }
      out := next.value;
    }
    if PrefixFree(values.Keys) { UnflattenAll(values, order); }
    return Some(out), order;
  }

  // ------------------------------------------------------------------------- merge

  /** The two loops of `writeConfigMerged`. */
  method Merge(copy: Flat, base: Option<Flat>, disk: Option<Flat>) returns (values: Flat)
    ensures values == Merged(copy, base, disk)
  {
    values := copy;
    if base.None? || disk.None? { return; }
    var rest := copy.Keys;
    while rest != {}
      invariant rest <= copy.Keys
      invariant values == map k | k in copy ::
        if k !in rest && copy[k] == OrNull(base.value, k) && k in disk.value then disk.value[k] else copy[k]
      decreases rest
    {
      var k :| k in rest;
      if values[k] == OrNull(base.value, k) && k in disk.value {
        values := values[k := disk.value[k]];
      }
      rest := rest - {k};
    }
    var more := disk.value.Keys;
    while more != {}
      invariant more <= disk.value.Keys
      invariant values == map k | k in copy.Keys + (disk.value.Keys - more) ::
        if k in copy && !(copy[k] == OrNull(base.value, k) && k in disk.value) then copy[k] else disk.value[k]
      decreases more
    {
      var k :| k in more;
      if k !in values {
        values := values[k := disk.value[k]];
      }
      more := more - {k};
    }
  }

  /** The file on disk, which other processes and the web editor replace as well. */
  class File {
    var content: Option<Object>

    constructor (content: Option<Object>)
      ensures this.content == content
    {
      this.content := content;
    }
  }

  datatype WriteOutcome = Written | Refused | Panicked

  /** What one process remembers of a configuration file. */
  class Config {
    var baseline: Option<Flat>

    constructor ()
      ensures baseline.None?
    {
      baseline := None;
    }

    /** `rememberConfig`, once it has copied the settings. */
    method RememberConfig(copy: Flat)
      modifies this
      ensures baseline == Some(copy)
    {
      baseline := Some(copy);
    }

    /** `writeConfigMerged`, once it has copied the settings: `disk` is what the file read as
        under the lock, and `order` how the merged map happened to be iterated. Where the
        paths of the settings and of the file do not get in each other's way the write never
        panics, and the file afterwards reads as the merge. */
    method WriteConfigMerged(file: File, copy: Flat, locks: bool, writes: bool)
      returns (outcome: WriteOutcome, ghost disk: Option<Flat>, ghost order: seq<string>)
      modifies this, file
      ensures disk.Some? <==> old(file.content).Some?
      ensures disk.Some? ==> Flattened(old(file.content).value, "", map[], disk.value)
      ensures var values := Merged(copy, old(baseline), disk);
        && IsOrder(order, values.Keys)
        && (outcome == Refused <==> !locks || (Unflatten(values, order, map[]).Some? && !writes))
        && (outcome == Panicked <==> locks && Unflatten(values, order, map[]).None?)
        && (outcome == Written ==> baseline == Some(copy) && file.content == Unflatten(values, order, map[]))
        && (outcome != Written ==> baseline == old(baseline) && file.content == old(file.content))
        && (Sound(values.Keys) ==>
              && outcome != Panicked
              && (outcome == Written ==>
                    && file.content.Some?
                    && forall flat :: Flattened(file.content.value, "", map[], flat) ==> flat == values))
    {
      var found := None;
      if file.content.Some? {
        var flat := Flatten(file.content.value, "", map[]);
        found := Some(flat);
      }
      disk := found;
      hide Flattened;
      if !locks {
        order := SomeOrder(Merged(copy, baseline, disk).Keys);
        return Refused, disk, order;
      }
      var values := Merge(copy, baseline, found);
      var o;
      o, order := UnflattenValues(values);
      if Sound(values.Keys) { SoundValuesComeBack(values, order); }
      if o.None? { return Panicked, disk, order; }
      if !writes { return Refused, disk, order; }
      file.content := o;
      RememberConfig(copy);
      return Written, disk, order;
    }
  }
}
