/** Trimming and decimal digits, on text of any kind of character. */
module Text {

  predicate All<T>(s: seq<T>, p: T -> bool)
  {
    forall i :: 0 <= i < |s| ==> p(s[i])
  }

  /** The number that digits stand for, the last one counting least. */
  function Decimal<T>(s: seq<T>, digit: T -> nat): nat
  {
    if s == [] then 0 else Decimal(s[..|s| - 1], digit) * 10 + digit(s[|s| - 1])
  }

  function TrimLeft<T>(s: seq<T>, space: T -> bool): seq<T>
  {
    if s != [] && space(s[0]) then TrimLeft(s[1..], space) else s
  }

  function TrimRight<T>(s: seq<T>, space: T -> bool): seq<T>
  {
    if s != [] && space(s[|s| - 1]) then TrimRight(s[..|s| - 1], space) else s
  }

  /** `strings.TrimSpace`, where `space` says what a space is. */
  function TrimBoth<T>(s: seq<T>, space: T -> bool): seq<T>
  {
    TrimRight(TrimLeft(s, space), space)
  }

  lemma {:induction false} TrimLeftSkips<T>(pad: seq<T>, s: seq<T>, space: T -> bool)
    requires All(pad, space) && (s == [] || !space(s[0]))
    ensures TrimLeft(pad + s, space) == s
  {
    if pad == [] {
      assert pad + s == s;
    } else {
      assert (pad + s)[1..] == pad[1..] + s;
      TrimLeftSkips(pad[1..], s, space);
    }
  }

  lemma {:induction false} TrimRightSkips<T>(s: seq<T>, pad: seq<T>, space: T -> bool)
    requires All(pad, space) && (s == [] || !space(s[|s| - 1]))
    ensures TrimRight(s + pad, space) == s
  {
    if pad == [] {
      assert s + pad == s;
    } else {
      assert (s + pad)[..|s + pad| - 1] == s + pad[..|pad| - 1];
      TrimRightSkips(s, pad[..|pad| - 1], space);
    }
  }

  /** Trimming takes exactly the spaces around a text that has none at its ends. */
  lemma TrimTakesPadding<T>(left: seq<T>, s: seq<T>, right: seq<T>, space: T -> bool)
    requires All(left, space) && All(right, space)
    requires s != [] && !space(s[0]) && !space(s[|s| - 1])
    ensures TrimBoth(left + s + right, space) == s
  {
    assert left + s + right == left + (s + right);
    TrimLeftSkips(left, s + right, space);
    TrimRightSkips(s, right, space);
  }

  lemma {:induction false} TrimLeftEnds<T>(s: seq<T>, space: T -> bool)
    ensures TrimLeft(s, space) == s || |TrimLeft(s, space)| < |s|
    ensures TrimLeft(s, space) != [] ==> !space(TrimLeft(s, space)[0])
    ensures TrimLeft(s, space) == s <==> s == [] || !space(s[0])
  {
    if s != [] && space(s[0]) { TrimLeftEnds(s[1..], space); }
  }

  lemma {:induction false} TrimRightEnds<T>(s: seq<T>, space: T -> bool)
    ensures TrimRight(s, space) == s || |TrimRight(s, space)| < |s|
    ensures TrimRight(s, space) != [] ==>
      TrimRight(s, space)[0] == s[0] && !space(TrimRight(s, space)[|TrimRight(s, space)| - 1])
    ensures TrimRight(s, space) == s <==> s == [] || !space(s[|s| - 1])
  {
    if s != [] && space(s[|s| - 1]) { TrimRightEnds(s[..|s| - 1], space); }
  }

  /** Trimming changes nothing exactly when no end is a space. */
  lemma TrimKeepsIff<T>(s: seq<T>, space: T -> bool)
    ensures TrimBoth(s, space) == s <==> s == [] || (!space(s[0]) && !space(s[|s| - 1]))
    ensures TrimBoth(s, space) == s || |TrimBoth(s, space)| < |s|
  {
    TrimLeftEnds(s, space);
    TrimRightEnds(TrimLeft(s, space), space);
  }

  lemma TrimIsIdempotent<T>(s: seq<T>, space: T -> bool)
    ensures TrimBoth(TrimBoth(s, space), space) == TrimBoth(s, space)
  {
    TrimLeftEnds(s, space);
    TrimRightEnds(TrimLeft(s, space), space);
    TrimKeepsIff(TrimBoth(s, space), space);
  }
}
