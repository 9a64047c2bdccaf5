/**
 Counting the threads that are in a given phase, and collecting the items they carry.
 */
module Counting {

  ghost function Count<T>(s: seq<T>, p: T -> bool): (n: nat) {
    if s == [] then 0 else Count(s[..|s| - 1], p) + if p(s[|s| - 1]) then 1 else 0
  }

  lemma CountAppend<T>(s: seq<T>, x: T, p: T -> bool)
    ensures Count(s + [x], p) == Count(s, p) + if p(x) then 1 else 0
  {
    assert (s + [x])[..|s|] == s;
  }

  lemma {:induction false} CountUpdate<T>(s: seq<T>, i: nat, x: T, p: T -> bool)
    requires i < |s|
    ensures Count(s[i := x], p) == Count(s, p) - (if p(s[i]) then 1 else 0) + (if p(x) then 1 else 0)
  {
    var last := |s| - 1;
    if i == last {
      assert s[i := x][..last] == s[..last];
    } else {
      assert s[i := x][..last] == s[..last][i := x];
      CountUpdate(s[..last], i, x, p);
    }
  }

  /** Sequences that agree pointwise on `p` have the same count. */
  lemma {:induction false} CountSame<T>(s: seq<T>, s': seq<T>, p: T -> bool)
    requires |s| == |s'| && forall i | 0 <= i < |s| :: p(s[i]) == p(s'[i])
    ensures Count(s, p) == Count(s', p)
  {
    if s != [] {
      CountSame(s[..|s| - 1], s'[..|s| - 1], p);
    }
  }

  /** Predicates that agree on every element count the same. */
  lemma {:induction false} CountAlike<T>(s: seq<T>, p: T -> bool, p': T -> bool)
    requires forall i | 0 <= i < |s| :: p(s[i]) == p'(s[i])
    ensures Count(s, p) == Count(s, p')
  {
    if s != [] {
      CountAlike(s[..|s| - 1], p, p');
    }
  }

  lemma {:induction false} CountPositive<T>(s: seq<T>, p: T -> bool)
    ensures Count(s, p) > 0 <==> exists i :: 0 <= i < |s| && p(s[i])
  {
    if s != [] {
      var last := |s| - 1;
      CountPositive(s[..last], p);
      if i :| 0 <= i < |s| && p(s[i]) {
        if i < last {
          assert p(s[..last][i]);
        }
      }
      if i :| 0 <= i < last && p(s[..last][i]) {
        assert p(s[i]);
      }
    }
  }

  /** A count as large as the sequence means that every element is counted. */
  lemma {:induction false} CountFull<T>(s: seq<T>, p: T -> bool)
    ensures Count(s, p) <= |s|
    ensures Count(s, p) == |s| <==> forall i | 0 <= i < |s| :: p(s[i])
  {
    if s != [] {
      var last := |s| - 1;
      CountFull(s[..last], p);
      assert forall i | 0 <= i < last :: s[..last][i] == s[i];
    }
  }

  ghost function Gather<T, U>(s: seq<T>, f: T -> multiset<U>): (m: multiset<U>) {
    if s == [] then multiset{} else Gather(s[..|s| - 1], f) + f(s[|s| - 1])
  }

  lemma GatherAppend<T, U>(s: seq<T>, x: T, f: T -> multiset<U>)
    ensures Gather(s + [x], f) == Gather(s, f) + f(x)
  {
    assert (s + [x])[..|s|] == s;
  }

  lemma {:induction false} GatherUpdate<T, U>(s: seq<T>, i: nat, x: T, f: T -> multiset<U>)
    requires i < |s|
    ensures Gather(s[i := x], f) + f(s[i]) == Gather(s, f) + f(x)
  {
    var last := |s| - 1;
    if i == last {
      assert s[i := x][..last] == s[..last];
    } else {
      assert s[i := x][..last] == s[..last][i := x];
      GatherUpdate(s[..last], i, x, f);
      var a, b, e := Gather(s[..last][i := x], f), Gather(s[..last], f), f(s[last]);
      assert (a + e) + f(s[i]) == (a + f(s[i])) + e == (b + f(x)) + e == (b + e) + f(x);
    }
  }

  lemma {:induction false} GatherSame<T, U>(s: seq<T>, s': seq<T>, f: T -> multiset<U>)
    requires |s| == |s'| && forall i | 0 <= i < |s| :: f(s[i]) == f(s'[i])
    ensures Gather(s, f) == Gather(s', f)
  {
    if s != [] {
      GatherSame(s[..|s| - 1], s'[..|s| - 1], f);
    }
  }

  /** If `ok` holds at first and each step keeps it exactly when the step is not `bad`, then it holds all
      the way up to n exactly when none of the first n steps is bad. */
  lemma {:induction false} HoldsUpTo(ok: seq<bool>, bad: seq<bool>, n: nat)
    requires |ok| == |bad| + 1 && ok[0] && n < |ok|
    requires forall i | 0 <= i < |bad| && ok[i] :: ok[i + 1] <==> !bad[i]
    ensures (forall i | 0 <= i <= n :: ok[i]) <==> forall j | 0 <= j < n :: !bad[j]
  {
    if n > 0 {
      HoldsUpTo(ok, bad, n - 1);
      assert ok[n - 1] ==> (ok[n - 1 + 1] <==> !bad[n - 1]);
    }
  }
}
