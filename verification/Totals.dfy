// Sums over the per-thread parts of a protocol state.
module Totals {

  function Total<T(!new)>(f: T -> nat, s: seq<T>): (n: nat) {
    if s == [] then 0 else f(s[0]) + Total(f, s[1..])
  }

  lemma {:induction false} TotalUpdate<T(!new)>(f: T -> nat, s: seq<T>, i: nat, x: T)
    requires i < |s|
    ensures Total(f, s[i := x]) + f(s[i]) == Total(f, s) + f(x)
  {
    if i == 0 {
      assert s[i := x][1..] == s[1..];
    } else {
      TotalUpdate(f, s[1..], i - 1, x);
      assert s[i := x][1..] == s[1..][i - 1 := x];
    }
  }

  lemma {:induction false} TotalZero<T(!new)>(f: T -> nat, s: seq<T>)
    requires forall i :: 0 <= i < |s| ==> f(s[i]) == 0
    ensures Total(f, s) == 0
  {
    if s != [] {
      assert forall i :: 0 <= i < |s[1..]| ==> f(s[1..][i]) == f(s[i + 1]);
      TotalZero(f, s[1..]);
    }
  }

  lemma {:induction false} TotalAtLeast<T(!new)>(f: T -> nat, s: seq<T>, i: nat)
    requires i < |s|
    ensures f(s[i]) <= Total(f, s)
  {
    if i > 0 {
      TotalAtLeast(f, s[1..], i - 1);
    }
  }

  lemma {:induction false} TotalConcat<T(!new)>(f: T -> nat, s: seq<T>, t: seq<T>)
    ensures Total(f, s + t) == Total(f, s) + Total(f, t)
  {
    if s == [] {
      assert s + t == t;
    } else {
      assert (s + t)[1..] == s[1..] + t;
      TotalConcat(f, s[1..], t);
    }
  }

  // A sum of zeros and ones misses the count by at least one for each zero.
  lemma {:induction false} TotalBelow<T(!new)>(f: T -> nat, s: seq<T>, i: nat)
    requires forall k :: 0 <= k < |s| ==> f(s[k]) <= 1
    requires i < |s| && f(s[i]) == 0
    ensures Total(f, s) < |s|
  {
    assert forall k :: 0 <= k < |s[1..]| ==> f(s[1..][k]) == f(s[k + 1]);
    if i > 0 {
      TotalBelow(f, s[1..], i - 1);
    } else {
      TotalCount(f, s[1..]);
    }
  }

  lemma {:induction false} TotalCount<T(!new)>(f: T -> nat, s: seq<T>)
    requires forall k :: 0 <= k < |s| ==> f(s[k]) <= 1
    ensures Total(f, s) <= |s|
  {
    if s != [] {
      assert forall k :: 0 <= k < |s[1..]| ==> f(s[1..][k]) == f(s[k + 1]);
      TotalCount(f, s[1..]);
    }
  }

  // Pointwise bounds add up.
  lemma {:induction false} TotalBound<T(!new)>(f: T -> nat, g: T -> nat, s: seq<T>, t: seq<T>, c: nat)
    requires |s| == |t| && forall i :: 0 <= i < |s| ==> f(s[i]) <= g(t[i]) + c
    ensures Total(f, s) <= Total(g, t) + c * |s|
  {
    if s != [] {
      assert forall i :: 0 <= i < |s[1..]| ==> f(s[1..][i]) <= g(t[1..][i]) + c by {
        forall i | 0 <= i < |s[1..]|
          ensures f(s[1..][i]) <= g(t[1..][i]) + c
        {
          assert s[1..][i] == s[i + 1] && t[1..][i] == t[i + 1];
        }
      }
      TotalBound(f, g, s[1..], t[1..], c);
      assert c * |s| == c * |s[1..]| + c;
    }
  }
}
