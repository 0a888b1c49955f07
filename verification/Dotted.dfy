/** Names joined by dots: `strings.Split(s, ".")` and its inverse. */
module Dotted {

  type Path = seq<string>

  predicate Undotted(s: string)
  {
    '.' !in s
  }

  ghost predicate IsPath(p: Path)
  {
    p != [] && forall i :: 0 <= i < |p| ==> Undotted(p[i])
  }

  /** `strings.Split(s, ".")`. */
  function Split(s: string): (p: Path)
    ensures IsPath(p)
  {
    if s == [] then [""]
    else
      var rest := Split(s[1..]);
      if s[0] == '.' then [""] + rest else [[s[0]] + rest[0]] + rest[1..]
  }

  function Join(p: Path): string
    requires p != []
  {
    if |p| == 1 then p[0] else p[0] + "." + Join(p[1..])
  }

  lemma {:induction false} SplitHead(a: string, s: string)
    requires Undotted(a)
    ensures Split(a + "." + s) == [a] + Split(s)
  {
    if a == "" {
      assert ("" + "." + s)[0] == '.' && ("" + "." + s)[1..] == s;
    } else {
      assert (a + "." + s)[1..] == a[1..] + "." + s;
      SplitHead(a[1..], s);
      assert [a[0]] + a[1..] == a;
    }
  }

  lemma {:induction false} SplitWhole(a: string)
    requires Undotted(a)
    ensures Split(a) == [a]
  {
    if a != "" {
      SplitWhole(a[1..]);
      assert [a[0]] + a[1..] == a;
    }
  }

  lemma {:induction false} SplitJoin(p: Path)
    requires IsPath(p)
    ensures Split(Join(p)) == p
  {
    if |p| == 1 {
      SplitWhole(p[0]);
    } else {
      SplitJoin(p[1..]);
      SplitHead(p[0], Join(p[1..]));
    }
  }

  lemma {:induction false} JoinSplit(s: string)
    ensures Join(Split(s)) == s
  {
    if s != [] {
      JoinSplit(s[1..]);
      var rest := Split(s[1..]);
      if s[0] == '.' {
        assert ([""] + rest)[1..] == rest;
        assert "" + "." + s[1..] == s;
      } else if |rest| == 1 {
        assert [s[0]] + rest[0] == s;
      } else {
        assert ([[s[0]] + rest[0]] + rest[1..])[1..] == rest[1..];
        assert [s[0]] + (rest[0] + "." + Join(rest[1..])) == ([s[0]] + rest[0]) + "." + Join(rest[1..]);
      }
    }
  }
}
