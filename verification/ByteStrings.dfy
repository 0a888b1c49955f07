/** Byte strings and the order `sort.Strings` gives them.

    A Go string is a sequence of bytes and `<` on strings is the lexicographic order of
    those bytes, so the sorted arrangement of a set of keys is unique. That uniqueness
    is what makes an encoder that walks sorted keys independent of map iteration order. */
module ByteStrings {
  import opened Sets

  type Byte = x: int | 0 <= x < 256

  type Str = seq<Byte>

  /** Go's `a < b` on strings. */
  predicate Less(a: Str, b: Str)
  {
    if b == [] then false
    else if a == [] then true
    else if a[0] != b[0] then a[0] < b[0]
    else Less(a[1..], b[1..])
  }

  ghost predicate StrictlySorted(keys: seq<Str>)
  {
    forall i, j :: 0 <= i < j < |keys| ==> Less(keys[i], keys[j])
  }

  lemma {:induction false} LessIrreflexive(a: Str)
    ensures !Less(a, a)
  {
    if a != [] {
      LessIrreflexive(a[1..]);
    }
  }

  lemma {:induction false} LessTransitive(a: Str, b: Str, c: Str)
    requires Less(a, b) && Less(b, c)
    ensures Less(a, c)
  {
    if a != [] && a[0] == b[0] == c[0] {
      LessTransitive(a[1..], b[1..], c[1..]);
    }
  }

  lemma {:induction false} LessTotal(a: Str, b: Str)
    ensures Less(a, b) || a == b || Less(b, a)
  {
    if a != [] && b != [] && a[0] == b[0] {
      LessTotal(a[1..], b[1..]);
      assert a == [a[0]] + a[1..] && b == [b[0]] + b[1..];
    }
  }

  /** A finite non-empty set of strings has a least element. */
  lemma {:induction false} LeastExists(s: set<Str>) returns (least: Str)
    requires s != {}
    ensures least in s
    ensures forall x :: x in s && x != least ==> Less(least, x)
  {
    var k :| k in s;
    var rest := s - {k};
    assert s == rest + {k};
    if rest == {} {
      least := k;
    } else {
      var l := LeastExists(rest);
      LessTotal(k, l);
      least := if Less(k, l) then k else l;
      forall x | x in s && x != least
        ensures Less(least, x)
      {
        if x != k && x != l && least == k {
          LessTransitive(k, l, x);
        }
      }
    }
  }

  /** The keys of a set in the order `sort.Strings` leaves them. */
  ghost function Sorted(s: set<Str>): (keys: seq<Str>)
    ensures |keys| == |s| && Elements(keys) == s
  {
    if s == {} then []
    else
      LeastOf(s);
      var least :| least in s && forall x :: x in s && x != least ==> Less(least, x);
      var rest := Sorted(s - {least});
      ElementsConcat([least], rest);
      assert Elements([least]) + Elements(rest) == s;
      [least] + rest
  }

  lemma LeastOf(s: set<Str>)
    requires s != {}
    ensures exists least :: least in s && forall x :: x in s && x != least ==> Less(least, x)
  {
    var _ := LeastExists(s);
  }

  lemma {:induction false} SortedIsStrict(s: set<Str>)
    ensures StrictlySorted(Sorted(s))
  {
    if s != {} {
      var keys := Sorted(s);
      LeastOf(s);
      var least := keys[0];
      SortedIsStrict(s - {least});
      assert keys[1..] == Sorted(s - {least});
      forall i, j | 0 <= i < j < |keys|
        ensures Less(keys[i], keys[j])
      {
        assert keys[j] == keys[1..][j - 1];
        if i > 0 {
          assert keys[i] == keys[1..][i - 1];
        } else {
          assert keys[j] in Elements(keys[1..]);
        }
      }
    }
  }

  lemma StrictIsDistinct(keys: seq<Str>)
    requires StrictlySorted(keys)
    ensures Distinct(keys)
  {
    forall i, j | 0 <= i < j < |keys|
      ensures keys[i] != keys[j]
    {
      LessIrreflexive(keys[i]);
    }
  }

  /** Two strictly sorted arrangements of the same keys are the same arrangement. */
  lemma {:induction false} SortedUnique(a: seq<Str>, b: seq<Str>)
    requires StrictlySorted(a) && StrictlySorted(b)
    requires Elements(a) == Elements(b)
    ensures a == b
  {
    if a == [] {
      FirstIsElement(b);
    } else {
      assert a[0] in Elements(b);
      var i :| 0 <= i < |b| && b[i] == a[0];
      assert b[0] in Elements(a);
      var j :| 0 <= j < |a| && a[j] == b[0];
      if i > 0 && j > 0 {
        LessTransitive(a[0], b[0], a[0]);
        LessIrreflexive(a[0]);
      }
      assert a[0] == b[0];
      StrictIsDistinct(a);
      StrictIsDistinct(b);
      TailElements(a);
      TailElements(b);
      SortedUnique(a[1..], b[1..]);
      assert a == [a[0]] + a[1..] && b == [b[0]] + b[1..];
    }
  }

  /** `sort.Strings` on distinct keys, by insertion. */
  method SortStrings(keys: seq<Str>) returns (sorted: seq<Str>)
    requires Distinct(keys)
    ensures sorted == Sorted(Elements(keys))
  {
    sorted := [];
    for n := 0 to |keys|
      invariant StrictlySorted(sorted)
      invariant Elements(sorted) == Elements(keys[..n])
    {
      var at := 0;
      while at < |sorted| && Less(sorted[at], keys[n])
        invariant 0 <= at <= |sorted|
        invariant forall i :: 0 <= i < at ==> Less(sorted[i], keys[n])
      {
        at := at + 1;
      }
      ghost var before := sorted;
      if at < |sorted| {
        LessTotal(sorted[at], keys[n]);
        assert sorted[at] != keys[n] by {
          assert sorted[at] in Elements(keys[..n]);
        }
      }
      forall i | at <= i < |sorted|
        ensures Less(keys[n], sorted[i])
      {
        if i > at { LessTransitive(keys[n], sorted[at], sorted[i]); }
      }
      sorted := sorted[..at] + [keys[n]] + sorted[at..];
      ElementsConcat(before[..at], before[at..]);
      assert before == before[..at] + before[at..];
      ElementsConcat(before[..at] + [keys[n]], before[at..]);
      ElementsConcat(before[..at], [keys[n]]);
      assert keys[..n + 1] == keys[..n] + [keys[n]];
      ElementsConcat(keys[..n], [keys[n]]);
    }
    assert keys[..|keys|] == keys;
    SortedIsStrict(Elements(keys));
    SortedUnique(sorted, Sorted(Elements(keys)));
  }
}
