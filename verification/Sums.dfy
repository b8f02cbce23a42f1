/** Finite sums over maps and sequences, and how they change when one entry changes. */
module Sums {
  /** Sum of a weight over all values of a map. */
  ghost function SumBy<K, V>(m: map<K, V>, f: V -> nat): nat
  {
    if m == map[] then 0
    else var k :| k in m; f(m[k]) + SumBy(m - {k}, f)
  }

  lemma {:induction false} SumRemove<K, V>(m: map<K, V>, k: K, f: V -> nat)
    requires k in m
    ensures SumBy(m, f) == f(m[k]) + SumBy(m - {k}, f)
    decreases |m|
  {
    var j :| j in m && SumBy(m, f) == f(m[j]) + SumBy(m - {j}, f);
    if j != k {
      SumRemove(m - {j}, k, f);
      SumRemove(m - {k}, j, f);
      assert m - {j} - {k} == m - {k} - {j};
    }
  }

  lemma SumInsert<K, V>(m: map<K, V>, k: K, v: V, f: V -> nat)
    ensures k !in m ==> SumBy(m[k := v], f) == SumBy(m, f) + f(v)
    ensures k in m ==> SumBy(m[k := v], f) + f(m[k]) == SumBy(m, f) + f(v)
  {
    SumRemove(m[k := v], k, f);
    assert m[k := v] - {k} == m - {k};
    if k in m {
      SumRemove(m, k, f);
    } else {
      assert m - {k} == m;
    }
  }

  /** Dropping two keys, which may be the same key. */
  lemma SumRemovePair<K, V>(m: map<K, V>, j: K, k: K, f: V -> nat)
    requires j in m && k in m
    ensures SumBy(m - {j, k}, f) + f(m[k]) + (if j == k then 0 else f(m[j])) == SumBy(m, f)
  {
    SumRemove(m, k, f);
    if j == k {
      assert {j, k} == {k};
    } else {
      SumRemove(m - {k}, j, f);
      assert m - {k} - {j} == m - {j, k};
    }
  }

  lemma {:induction false} SumOfZeros<K, V>(m: map<K, V>, f: V -> nat)
    requires forall k :: k in m ==> f(m[k]) == 0
    ensures SumBy(m, f) == 0
    decreases |m|
  {
    if m != map[] {
      var k :| k in m;
      SumRemove(m, k, f);
      SumOfZeros(m - {k}, f);
    }
  }

  lemma OneMore(n: nat, bound: nat)
    ensures (n + 1) * bound == n * bound + bound
  {
  }

  lemma {:induction false} SumBound<K, V>(m: map<K, V>, f: V -> nat, bound: nat)
    requires forall k :: k in m ==> f(m[k]) <= bound
    ensures SumBy(m, f) <= |m| * bound
    decreases |m|
  {
    if m == map[] {
      assert SumBy(m, f) == 0;
    } else {
      hide SumBy;
      var k :| k in m;
      SumRemove(m, k, f);
      var rest := m - {k};
      SumBound(rest, f, bound);
      assert |m| == |rest| + 1 by {
        assert m.Keys == rest.Keys + {k};
      }
      OneMore(|rest|, bound);
    }
  }

  /**
   * Entries of m charged to distinct entries of n, each within what its counterpart carries,
   * cannot add up to more than the whole of n.
   */
  lemma {:induction false} SumWithin<J, K, V, W>(m: map<J, V>, f: V -> nat, n: map<K, W>, g: W -> nat, link: map<J, K>)
    requires forall j :: j in m ==> j in link && link[j] in n && f(m[j]) <= g(n[link[j]])
    requires forall i, j :: i in m && j in m && link[i] == link[j] ==> i == j
    ensures SumBy(m, f) <= SumBy(n, g)
    decreases |m|
  {
    if m != map[] {
      var j :| j in m;
      SumRemove(m, j, f);
      SumRemove(n, link[j], g);
      SumWithin(m - {j}, f, n - {link[j]}, g, link);
    }
  }

  function SumSeq(s: seq<nat>): nat {
    if s == [] then 0 else s[0] + SumSeq(s[1..])
  }

  lemma {:induction false} SumSeqAppend(s: seq<nat>, t: seq<nat>)
    ensures SumSeq(s + t) == SumSeq(s) + SumSeq(t)
  {
    if s == [] {
      assert s + t == t;
    } else {
      SumSeqAppend(s[1..], t);
      assert (s + t)[1..] == s[1..] + t;
    }
  }

  lemma SumSeqTake(s: seq<nat>, n: nat)
    requires n < |s|
    ensures SumSeq(s[..n + 1]) == SumSeq(s[..n]) + s[n]
  {
    SumSeqAppend(s[..n], [s[n]]);
    assert s[..n + 1] == s[..n] + [s[n]];
  }
}
