/** How many elements of a sequence have a property. */
module Counting {
  import opened Basics

  function Count<T>(ts: seq<T>, p: T -> bool): nat {
    if ts == [] then 0 else Ind(p(ts[0])) + Count(ts[1..], p)
  }

  lemma {:induction false} CountAfter<T>(ts: seq<T>, k: nat, t: T, p: T -> bool)
    requires k < |ts|
    ensures Count(ts[k := t], p) == Count(ts, p) - Ind(p(ts[k])) + Ind(p(t))
  {
    if k == 0 {
      assert ts[k := t][1..] == ts[1..];
    } else {
      assert ts[k := t][1..] == ts[1..][k - 1 := t];
      CountAfter(ts[1..], k - 1, t, p);
    }
  }

  lemma {:induction false} CountGrows<T>(ts: seq<T>, t: T, p: T -> bool)
    ensures Count(ts + [t], p) == Count(ts, p) + Ind(p(t))
  {
    if ts != [] {
      assert (ts + [t])[1..] == ts[1..] + [t];
      CountGrows(ts[1..], t, p);
    }
  }

  lemma {:induction false} SomeCounts<T>(ts: seq<T>, p: T -> bool) returns (k: nat)
    requires Count(ts, p) > 0
    ensures k < |ts| && p(ts[k])
  {
    if p(ts[0]) {
      k := 0;
    } else {
      k := SomeCounts(ts[1..], p);
      k := k + 1;
    }
  }

  lemma {:induction false} OneCounts<T>(ts: seq<T>, k: nat, p: T -> bool)
    requires k < |ts| && p(ts[k])
    ensures Count(ts, p) >= 1
  {
    if k > 0 {
      OneCounts(ts[1..], k - 1, p);
    }
  }

  /** With at most one, there is one place for it. */
  lemma {:induction false} OnlyOne<T>(ts: seq<T>, i: nat, j: nat, p: T -> bool)
    requires i < |ts| && j < |ts| && p(ts[i]) && p(ts[j]) && Count(ts, p) <= 1
    ensures i == j
  {
    if i == 0 && j > 0 {
      OneCounts(ts[1..], j - 1, p);
    } else if j == 0 && i > 0 {
      OneCounts(ts[1..], i - 1, p);
    } else if i > 0 {
      OnlyOne(ts[1..], i - 1, j - 1, p);
    }
  }

  lemma {:induction false} NobodyCounts<T>(ts: seq<T>, p: T -> bool)
    requires forall k :: 0 <= k < |ts| ==> !p(ts[k])
    ensures Count(ts, p) == 0
  {
    if ts != [] {
      NobodyCounts(ts[1..], p);
    }
  }
}
