/** `flatten` and `unflatten` (`cfg/web_settings.go`), and exactly when each undoes the
    other. */
module ConfigFlatten {
  import opened Wrappers
  import opened Sets
  import opened Dotted
  import opened ConfigTree

  // --------------------------------------------------------------------- unflatten

  /** Puts a value at a path, making the objects on the way; `None` is the failed type
      assertion on a path that goes through a leaf. */
  function Insert(o: Object, p: Path, v: Value): Option<Object>
    requires p != []
    decreases |p|
  {
    if |p| == 1 then Some(o[p[0] := Leaf(v)])
    else
      match if p[0] in o then o[p[0]] else Node(map[])
      case Leaf(_) => None
      case Node(kids) =>
        match Insert(kids, p[1..], v)
        case None => None
        case Some(inner) => Some(o[p[0] := Node(inner)])
  }

  /** `unflatten`, over the keys in the order `order`. */
  function Unflatten(values: Flat, order: seq<string>, o: Object): Option<Object>
    requires forall key :: key in order ==> key in values
    decreases |order|
  {
    if order == [] then Some(o)
    else
      match Insert(o, Split(order[0]), values[order[0]])
      case None => None
      case Some(next) => Unflatten(values, order[1..], next)
  }

  /** Insertion fails exactly when a leaf lies on the way. */
  lemma {:induction false} InsertFailsIff(o: Object, p: Path, v: Value)
    requires p != []
    ensures Insert(o, p, v).None? <==> exists n :: 0 < n < |p| && LeafAt(o, p[..n]).Some?
    decreases |p|
  {
    if |p| > 1 && p[0] in o {
      if o[p[0]].Leaf? {
        assert LeafAt(o, p[..1]).Some?;
      } else {
        var kids := o[p[0]].kids;
        InsertFailsIff(kids, p[1..], v);
        assert forall n :: 0 < n < |p| - 1 ==> p[1..][..n] == p[..n + 1][1..];
        if Insert(kids, p[1..], v).None? {
          var n :| 0 < n < |p| - 1 && LeafAt(kids, p[1..][..n]).Some?;
          assert LeafAt(o, p[..n + 1]).Some?;
        } else {
          forall n | 0 < n < |p| ensures LeafAt(o, p[..n]).None? {
            if n > 1 { assert p[1..][..n - 1] == p[..n][1..]; }
          }
        }
      }
    } else if |p| > 1 {
      InsertIntoEmpty(p[1..], v);
      assert forall n :: 0 < n < |p| ==> LeafAt(o, p[..n]).None?;
    }
  }

  lemma {:induction false} InsertIntoEmpty(p: Path, v: Value)
    requires p != []
    ensures Insert(map[], p, v).Some?
    decreases |p|
  {
    if |p| > 1 { InsertIntoEmpty(p[1..], v); }
  }

  /** After an insertion the leaf is there, what lay below it is gone, and the rest is as
      before. */
  lemma {:induction false} InsertedLeaves(o: Object, p: Path, v: Value, q: Path)
    requires p != [] && Insert(o, p, v).Some?
    ensures LeafAt(Insert(o, p, v).value, q) == if q == p then Some(v) else if p < q then None else LeafAt(o, q)
    decreases |p|
  {
    if |p| == 1 {
      if q != [] && q[0] == p[0] {
        assert p < q <==> |q| > 1;
        assert q == p <==> |q| == 1;
      } else {
        assert !(p < q);
      }
    } else {
      var kids := if p[0] in o then o[p[0]].kids else map[];
      if q != [] && q[0] == p[0] {
        InsertedLeaves(kids, p[1..], v, q[1..]);
        assert p == [p[0]] + p[1..] && q == [q[0]] + q[1..];
        assert q == p <==> q[1..] == p[1..];
        assert p < q <==> p[1..] < q[1..];
      } else {
        assert !(p < q) && q != p;
      }
    }
  }

  lemma {:induction false} InsertKeepsShape(o: Object, p: Path, v: Value)
    requires p != [] && Insert(o, p, v).Some?
    ensures Insert(o, p, v).value != map[]
    ensures Full(o) ==> Full(Insert(o, p, v).value)
    ensures Plain(o) && IsPath(p) ==> Plain(Insert(o, p, v).value)
    decreases |p|
  {
    var r := Insert(o, p, v).value;
    assert p[0] in r;
    if |p| > 1 {
      var kids := if p[0] in o then o[p[0]].kids else map[];
      InsertKeepsShape(kids, p[1..], v);
    }
  }

  /** No path of one key extends the path of another. */
  ghost predicate PrefixFree(keys: set<string>)
  {
    forall a, b :: a in keys && b in keys ==> !(Split(a) < Split(b))
  }

  /** What `o` holds at every path once the keys `done` have been put in. */
  ghost predicate Represents(o: Object, values: Flat, done: set<string>)
  {
    && (forall q :: LeafAt(o, q).Some? ==>
          q != [] && Split(Join(q)) == q && Join(q) in done && Join(q) in values && LeafAt(o, q) == Some(values[Join(q)]))
    && (forall key :: key in done && key in values ==> LeafAt(o, Split(key)) == Some(values[key]))
  }

  lemma InsertRepresents(o: Object, values: Flat, done: set<string>, key: string)
    requires Represents(o, values, done) && key in values && key !in done
    requires PrefixFree(done + {key})
    ensures Insert(o, Split(key), values[key]).Some?
    ensures Represents(Insert(o, Split(key), values[key]).value, values, done + {key})
  {
    var p := Split(key);
    InsertFailsIff(o, p, values[key]);
    forall n | 0 < n < |p| ensures LeafAt(o, p[..n]).None? {
      assert p[..n] < Split(key);
    }
    var r := Insert(o, p, values[key]).value;
    JoinSplit(key);
    forall q | LeafAt(r, q).Some?
      ensures q != [] && Split(Join(q)) == q && Join(q) in done + {key} && Join(q) in values && LeafAt(r, q) == Some(values[Join(q)])
    {
      InsertedLeaves(o, p, values[key], q);
    }
    forall k | k in done + {key} && k in values ensures LeafAt(r, Split(k)) == Some(values[k]) {
      InsertedLeaves(o, p, values[key], Split(k));
      if k != key {
        JoinSplit(k);
        assert !(Split(key) < Split(k));
      }
    }
  }

  /** Keys whose paths do not extend one another go into an object that holds exactly their
      values, in any order. */
  lemma {:induction false} UnflattenRepresents(values: Flat, order: seq<string>, o: Object, done: set<string>)
    requires forall key :: key in order ==> key in values && key !in done
    requires Distinct(order) && Represents(o, values, done) && Full(o) && Plain(o)
    requires PrefixFree(done + Elements(order))
    ensures Unflatten(values, order, o).Some?
    ensures Represents(Unflatten(values, order, o).value, values, done + Elements(order))
    ensures Full(Unflatten(values, order, o).value) && Plain(Unflatten(values, order, o).value)
    decreases |order|
  {
    hide Represents, Insert, Full, Plain, PrefixFree, Split;
    if order == [] {
      assert done + Elements(order) == done;
    } else {
      var key := order[0];
      TakeFirst(order, done);
      PrefixFreeSubset(done + {key}, done + Elements(order));
      InsertRepresents(o, values, done, key);
      InsertKeepsShape(o, Split(key), values[key]);
      UnflattenRepresents(values, order[1..], Insert(o, Split(key), values[key]).value, done + {key});
    }
  }

  lemma TakeFirst(order: seq<string>, done: set<string>)
    requires order != []
    ensures order[0] in Elements(order) && (done + {order[0]}) + Elements(order[1..]) == done + Elements(order)
  {
    assert order == [order[0]] + order[1..];
  }

  lemma PrefixFreeSubset(some: set<string>, all: set<string>)
    requires some <= all && PrefixFree(all)
    ensures PrefixFree(some)
  {
  }

  /** However the keys relate, every leaf of the result was put there under its key, and the
      result has no dotted name and no empty inner object. */
  lemma {:induction false} UnflattenIsSound(values: Flat, order: seq<string>, o: Object, done: set<string>)
    requires forall key :: key in order ==> key in values
    requires Unflatten(values, order, o).Some? && Full(o) && Plain(o)
    requires forall q :: LeafAt(o, q).Some? ==> q != [] && Join(q) in done
    ensures var r := Unflatten(values, order, o).value;
      Full(r) && Plain(r) && forall q :: LeafAt(r, q).Some? ==> q != [] && Join(q) in done + Elements(order)
    decreases |order|
  {
    if order != [] {
      var key := order[0];
      var p := Split(key);
      var next := Insert(o, p, values[key]).value;
      InsertKeepsShape(o, p, values[key]);
      JoinSplit(key);
      forall q | LeafAt(next, q).Some? ensures q != [] && Join(q) in done + {key} {
        InsertedLeaves(o, p, values[key], q);
      }
      TakeFirst(order, done);
      hide Insert, Full, Plain;
      UnflattenIsSound(values, order[1..], next, done + {key});
    }
  }

  // ----------------------------------------------------------------------- flatten

  /** What `flatten` may leave in its output: each leaf below `prefix` under its key, where
      leaves that share a key leave one of their values, and the other keys untouched. */
  ghost predicate Flattened(o: Object, prefix: string, before: Flat, after: Flat)
  {
    && (forall q :: LeafAt(o, q).Some? ==> q != [] && Under(prefix, q) in after)
    && (forall key :: key in before ==> key in after)
    && (forall key :: key in after ==>
          || IsLeafKey(o, prefix, key, after[key])
          || (key in before && after[key] == before[key] && forall v :: !IsLeafKey(o, prefix, key, v)))
  }

  ghost predicate IsLeafKey(o: Object, prefix: string, key: string, v: Value)
  {
    exists q: Path :: q != [] && LeafAt(o, q) == Some(v) && Under(prefix, q) == key
  }

  /** The paths of the leaves. */
  ghost function Paths(o: Object): set<Path>
    decreases Node(o)
  {
    set k, q | k in o && q in (if o[k].Leaf? then {[]} else Paths(o[k].kids)) :: [k] + q
  }

  lemma {:induction false} PathsAreLeaves(o: Object, q: Path)
    ensures q in Paths(o) <==> LeafAt(o, q).Some?
    decreases Node(o)
  {
    if q != [] && q[0] in o {
      assert q == [q[0]] + q[1..];
      assert forall k, r :: [k] + r == q ==> k == q[0] && r == q[1..];
      if o[q[0]].Node? { PathsAreLeaves(o[q[0]].kids, q[1..]); }
    }
  }

  /** Some result of flattening. */
  ghost function FlatOf(o: Object): (flat: Flat)
    ensures Flattened(o, "", map[], flat)
  {
    assert forall q :: q in Paths(o) <==> LeafAt(o, q).Some? by {
      forall q ensures q in Paths(o) <==> LeafAt(o, q).Some? { PathsAreLeaves(o, q); }
    }
    assert forall q :: LeafAt(o, q).Some? ==> q != [] && IsLeafKey(o, "", Under("", q), LeafAt(o, q).value);
    map key | key in (set q | q in Paths(o) && q != [] :: Under("", q)) :: LeafValue(o, key)
  }

  ghost function LeafValue(o: Object, key: string): (v: Value)
    requires exists v :: IsLeafKey(o, "", key, v)
    ensures IsLeafKey(o, "", key, v)
  {
    var v :| IsLeafKey(o, "", key, v);
    v
  }

  // ------------------------------------------------------------- there and back

  lemma CleanKeys(o: Object, flat: Flat)
    requires Clean(o) && Flattened(o, "", map[], flat)
    ensures forall q :: LeafAt(o, q).Some? ==>
      IsPath(q) && Join(q) in flat && flat[Join(q)] == LeafAt(o, q).value
    ensures forall key :: key in flat ==> LeafAt(o, Split(key)) == Some(flat[key])
  {
    forall q | LeafAt(o, q).Some? ensures IsPath(q) && Under("", q) == Join(q) && Split(Join(q)) == q {
      LeafPathsArePlain(o, q);
      SplitJoin(q);
      UnderIsJoin(q);
    }
    forall key | key in flat ensures LeafAt(o, Split(key)) == Some(flat[key]) {
      assert IsLeafKey(o, "", key, flat[key]);
    }
  }

  lemma CleanKeysArePrefixFree(o: Object, flat: Flat)
    requires forall key :: key in flat ==> LeafAt(o, Split(key)) == Some(flat[key])
    ensures PrefixFree(flat.Keys)
  {
    forall a, b | a in flat && b in flat ensures !(Split(a) < Split(b)) {
      if Split(a) < Split(b) { LeavesDoNotNest(o, Split(a), Split(b)); }
    }
  }

  lemma UnflattenAll(values: Flat, order: seq<string>)
    requires PrefixFree(values.Keys) && IsOrder(order, values.Keys)
    ensures Unflatten(values, order, map[]).Some?
    ensures var r := Unflatten(values, order, map[]).value;
      Represents(r, values, values.Keys) && Full(r) && Plain(r)
  {
    assert {} + Elements(order) == values.Keys;
    hide PrefixFree, Insert;
    UnflattenRepresents(values, order, map[], {});
  }

  lemma CleanComesBack(o: Object, flat: Flat, order: seq<string>)
    requires Clean(o) && Flattened(o, "", map[], flat) && IsOrder(order, flat.Keys)
    ensures Unflatten(flat, order, map[]) == Some(o)
  {
    CleanKeys(o, flat);
    CleanKeysArePrefixFree(o, flat);
    UnflattenAll(flat, order);
    var r := Unflatten(flat, order, map[]).value;
    hide PrefixFree, Flattened, Unflatten, Full, Plain;
    forall q ensures LeafAt(r, q) == LeafAt(o, q) {
      if LeafAt(o, q).Some? { SplitJoin(q); }
    }
    LeavesDetermine(r, o);
  }

  lemma RootlessLeaf(o: Object) returns (q: Path)
    requires Full(o) && "" in o && o[""].Node?
    ensures LeafAt(o, q).Some? && Rootless(q)
  {
    var rest := FullHasLeaf(o[""].kids);
    q := [""] + rest;
    assert q[1..] == rest;
  }

  lemma ComingBackIsClean(o: Object, flat: Flat, order: seq<string>)
    requires Flattened(o, "", map[], flat) && IsOrder(order, flat.Keys)
    requires Unflatten(flat, order, map[]) == Some(o)
    ensures Clean(o)
  {
    UnflattenIsSound(flat, order, map[], {});
    assert {} + Elements(order) == flat.Keys;
    if "" in o && o[""].Node? {
      var q := RootlessLeaf(o);
      LeafPathsArePlain(o, q);
      JoinLeadsWithDot(q);
      var key := Join(q);
      var v := flat[key];
      var p: Path :| p != [] && LeafAt(o, p) == Some(v) && Under("", p) == key;
      LeafPathsArePlain(o, p);
      UnderNeverLeadsWithDot(p);
    }
  }

  /** Whatever order the two iterations take, an object comes back from its dotted paths
      exactly when no name in it has a dot, no inner object is empty, and no object hangs at
      the top under the empty name. */
  lemma FlattenThenUnflatten(o: Object, flat: Flat, order: seq<string>)
    requires Flattened(o, "", map[], flat) && IsOrder(order, flat.Keys)
    ensures Unflatten(flat, order, map[]) == Some(o) <==> Clean(o)
  {
    if Clean(o) { CleanComesBack(o, flat, order); }
    if Unflatten(flat, order, map[]) == Some(o) { ComingBackIsClean(o, flat, order); }
  }

  /** Key sets that go through an object unharmed. */
  ghost predicate Sound(keys: set<string>)
  {
    PrefixFree(keys) && forall key :: key in keys ==> key == "" || key[0] != '.'
  }

  lemma SoundIsClean(values: Flat, o: Object)
    requires Sound(values.Keys) && Represents(o, values, values.Keys) && Full(o) && Plain(o)
    ensures Clean(o)
  {
    forall q | LeafAt(o, q).Some? ensures !Rootless(q) {
      LeafPathsArePlain(o, q);
      JoinLeadsWithDot(q);
    }
    if "" in o && o[""].Node? {
      var _ := RootlessLeaf(o);
    }
  }

  lemma RepresentedComesBack(values: Flat, o: Object, flat: Flat)
    requires Represents(o, values, values.Keys) && Clean(o) && Flattened(o, "", map[], flat)
    ensures flat == values
  {
    CleanKeys(o, flat);
    hide Flattened, Clean;
    forall key | key in values ensures key in flat && flat[key] == values[key] {
      JoinSplit(key);
      assert LeafAt(o, Split(key)) == Some(values[key]);
    }
    forall key | key in flat ensures key in values {
      JoinSplit(key);
    }
  }

  lemma SoundValuesComeBack(values: Flat, order: seq<string>)
    requires Sound(values.Keys) && IsOrder(order, values.Keys)
    ensures Unflatten(values, order, map[]).Some?
    ensures Clean(Unflatten(values, order, map[]).value)
    ensures forall flat :: Flattened(Unflatten(values, order, map[]).value, "", map[], flat) ==> flat == values
  {
    UnflattenAll(values, order);
    var o := Unflatten(values, order, map[]).value;
    SoundIsClean(values, o);
    hide Flattened, Sound, PrefixFree, Represents, Clean, Full, Plain, Unflatten;
    forall flat | Flattened(o, "", map[], flat) ensures flat == values {
      RepresentedComesBack(values, o, flat);
    }
  }

  /** Some order in which the keys may be iterated, beginning with `first`. */
  lemma {:induction false} SomeOrder(keys: set<string>) returns (order: seq<string>)
    ensures IsOrder(order, keys)
    decreases keys
  {
    if keys == {} {
      order := [];
    } else {
      var key :| key in keys;
      var rest := SomeOrder(keys - {key});
      order := [key] + rest;
    }
  }

  /** Where one path extends another, some order of iteration fails the type assertion. */
  lemma ConflictFails(values: Flat, a: string, b: string) returns (order: seq<string>)
    requires a in values && b in values && Split(a) < Split(b)
    ensures IsOrder(order, values.Keys) && Unflatten(values, order, map[]).None?
  {
    var rest := SomeOrder(values.Keys - {a, b});
    order := [a, b] + rest;
    var p := Split(a);
    InsertIntoEmpty(p, values[a]);
    var o := Insert(map[], p, values[a]).value;
    InsertedLeaves(map[], p, values[a], p);
    assert Split(b)[..|p|] == p;
    InsertFailsIff(o, Split(b), values[b]);
    assert order[1..] == [b] + rest && order[0] == a;
    assert Unflatten(values, [b] + rest, o).None?;
  }

  /** A path that begins with a dot does not come back. */
  lemma LeadingDotIsLost(values: Flat, order: seq<string>, key: string)
    requires IsOrder(order, values.Keys) && key in values && key != "" && key[0] == '.'
    requires Unflatten(values, order, map[]).Some?
    ensures FlatOf(Unflatten(values, order, map[]).value) != values
  {
    var o := Unflatten(values, order, map[]).value;
    UnflattenIsSound(values, order, map[], {});
    var flat := FlatOf(o);
    if key in flat {
      var q: Path :| q != [] && LeafAt(o, q) == Some(flat[key]) && Under("", q) == key;
      LeafPathsArePlain(o, q);
      UnderNeverLeadsWithDot(q);
    }
  }

  /** `unflatten` never fails and nothing is lost, in every order of iteration, exactly for
      key sets in which no path extends another and none begins with a dot. */
  lemma UnflattenThenFlatten(values: Flat)
    ensures Sound(values.Keys) <==>
      forall order :: IsOrder(order, values.Keys) ==>
        && Unflatten(values, order, map[]).Some?
        && forall flat :: Flattened(Unflatten(values, order, map[]).value, "", map[], flat) ==> flat == values
  {
    if Sound(values.Keys) {
      forall order | IsOrder(order, values.Keys)
        ensures Unflatten(values, order, map[]).Some?
        ensures forall flat :: Flattened(Unflatten(values, order, map[]).value, "", map[], flat) ==> flat == values
      {
        SoundValuesComeBack(values, order);
      }
    } else if !PrefixFree(values.Keys) {
      var a, b :| a in values && b in values && Split(a) < Split(b);
      var _ := ConflictFails(values, a, b);
    } else {
      var key :| key in values && key != "" && key[0] == '.';
      var order := SomeOrder(values.Keys);
      if Unflatten(values, order, map[]).Some? { LeadingDotIsLost(values, order, key); }
    }
  }
}
