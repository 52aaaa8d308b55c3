/** How many entries of a sequence satisfy a test, under the two changes a step system makes to it. */
module Counting {
  function CountOf<T>(s: seq<T>, counted: T -> bool): nat {
    if s == [] then 0
    else CountOf(s[..|s| - 1], counted) + (if counted(s[|s| - 1]) then 1 else 0)
  }

  lemma {:induction false} CountUpdate<T>(s: seq<T>, counted: T -> bool, i: nat, e: T)
    requires i < |s|
    ensures CountOf(s[i := e], counted) ==
            CountOf(s, counted) - (if counted(s[i]) then 1 else 0) + (if counted(e) then 1 else 0)
    decreases |s|
  {
    var after := s[i := e];
    if i < |s| - 1 {
      assert after[..|s| - 1] == s[..|s| - 1][i := e];
      CountUpdate(s[..|s| - 1], counted, i, e);
    } else {
      assert after[..|s| - 1] == s[..|s| - 1];
    }
  }

  lemma CountAppend<T>(s: seq<T>, counted: T -> bool, e: T)
    ensures CountOf(s + [e], counted) == CountOf(s, counted) + (if counted(e) then 1 else 0)
  {
    assert (s + [e])[..|s|] == s;
  }

  lemma {:induction false} CountNone<T>(s: seq<T>, counted: T -> bool, i: nat)
    requires i < |s| && CountOf(s, counted) == 0
    ensures !counted(s[i])
    decreases |s|
  {
    if i < |s| - 1 { CountNone(s[..|s| - 1], counted, i); }
  }

  lemma {:induction false} CountZero<T>(s: seq<T>, counted: T -> bool)
    requires forall i :: 0 <= i < |s| ==> !counted(s[i])
    ensures CountOf(s, counted) == 0
  {
    if s != [] { CountZero(s[..|s| - 1], counted); }
  }

  lemma {:induction false} CountAtMost<T>(s: seq<T>, some: T -> bool, more: T -> bool)
    requires forall i :: 0 <= i < |s| && some(s[i]) ==> more(s[i])
    ensures CountOf(s, some) <= CountOf(s, more)
  {
    if s != [] { CountAtMost(s[..|s| - 1], some, more); }
  }
}
