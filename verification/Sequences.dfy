/** Filtering and first matches on lists. */
module Sequences {

  function Keep<T>(s: seq<T>, f: T -> bool): seq<T> {
    if |s| == 0 then []
    else Keep(s[..|s| - 1], f) + (if f(s[|s| - 1]) then [s[|s| - 1]] else [])
  }

  lemma KeepStep<T>(s: seq<T>, f: T -> bool, n: nat)
    requires n < |s|
    ensures Keep(s[..n + 1], f) == Keep(s[..n], f) + (if f(s[n]) then [s[n]] else [])
  {
    assert s[..n + 1][..n] == s[..n];
  }

  lemma {:induction false} KeepMembers<T>(s: seq<T>, f: T -> bool, x: T)
    ensures x in Keep(s, f) <==> x in s && f(x)
  {
    if |s| > 0 {
      assert s == s[..|s| - 1] + [s[|s| - 1]];
      KeepMembers(s[..|s| - 1], f, x);
    }
  }

  lemma {:induction false} KeepTwice<T>(s: seq<T>, f: T -> bool, g: T -> bool, both: T -> bool)
    requires forall x :: x in s ==> both(x) == (f(x) && g(x))
    ensures Keep(Keep(s, f), g) == Keep(s, both)
  {
    if |s| > 0 {
      var init, last := s[..|s| - 1], s[|s| - 1];
      assert last in s && forall x :: x in init ==> x in s;
      KeepTwice(init, f, g, both);
      var k := Keep(init, f);
      if f(last) {
        assert Keep(s, f) == k + [last] && (k + [last])[..|k|] == k;
      } else {
        assert Keep(s, f) == k;
      }
    }
  }

  lemma {:induction false} KeepFromFront<T>(s: seq<T>, f: T -> bool)
    requires |s| > 0
    ensures Keep(s, f) == (if f(s[0]) then [s[0]] else []) + Keep(s[1..], f)
  {
    var init, tail := s[..|s| - 1], s[1..];
    if |s| == 1 {
      assert Keep(init, f) == [] && Keep(tail, f) == [];
    } else {
      KeepFromFront(init, f);
      assert init[1..] == tail[..|tail| - 1];
      assert tail[|tail| - 1] == s[|s| - 1];
    }
  }

  lemma {:induction false} KeepAll<T>(s: seq<T>, f: T -> bool)
    requires forall x :: x in s ==> f(x)
    ensures Keep(s, f) == s
  {
    if |s| > 0 {
      assert s == s[..|s| - 1] + [s[|s| - 1]];
      KeepAll(s[..|s| - 1], f);
    }
  }

  lemma {:induction false} KeepAgrees<T>(s: seq<T>, f: T -> bool, g: T -> bool)
    requires forall x :: x in s ==> f(x) == g(x)
    ensures Keep(s, f) == Keep(s, g)
  {
    if |s| > 0 {
      assert forall x :: x in s[..|s| - 1] ==> x in s;
      KeepAgrees(s[..|s| - 1], f, g);
    }
  }

  lemma {:induction false} KeepShrinks<T>(s: seq<T>, f: T -> bool)
    ensures |Keep(s, f)| <= |s|
    ensures |Keep(s, f)| == |s| <==> forall x :: x in s ==> f(x)
  {
    if |s| > 0 {
      assert s == s[..|s| - 1] + [s[|s| - 1]];
      KeepShrinks(s[..|s| - 1], f);
    }
  }

  /** The position of the first match, or the length of the list. */
  function First<T>(s: seq<T>, f: T -> bool): (i: nat)
    ensures i <= |s|
    ensures i < |s| ==> f(s[i])
    ensures forall j :: 0 <= j < i ==> !f(s[j])
  {
    if |s| == 0 || f(s[0]) then 0 else 1 + First(s[1..], f)
  }

  lemma FirstIs<T>(s: seq<T>, f: T -> bool, i: nat)
    requires i <= |s| && (i < |s| ==> f(s[i]))
    requires forall j :: 0 <= j < i ==> !f(s[j])
    ensures First(s, f) == i
  {
  }

  lemma FirstAgrees<T>(s: seq<T>, t: seq<T>, f: T -> bool)
    requires |s| == |t| && forall i :: 0 <= i < |s| ==> f(s[i]) == f(t[i])
    ensures First(s, f) == First(t, f)
  {
    FirstIs(t, f, First(s, f));
  }
}
