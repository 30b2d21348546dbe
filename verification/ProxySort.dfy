/** A sort that the proxy's comparator allows (src/sip-proxy-controller.cpp, forwardBestResponse). */
module ProxySorts {
  import S = ProxySpec

  /** Where the next index goes: behind every index of no lower rank. */
  function Place(ks: seq<nat>, p: seq<nat>, k: nat): (i: nat)
    requires forall j :: 0 <= j < |p| ==> p[j] < |ks|
    ensures i <= |p|
    ensures forall j :: 0 <= j < i ==> ks[p[j]] >= k
    ensures i < |p| ==> ks[p[i]] < k
  {
    if p == [] || ks[p[0]] < k then 0 else 1 + Place(ks, p[1..], k)
  }

  predicate Falling(ks: seq<nat>, p: seq<nat>) {
    && (forall j :: 0 <= j < |p| ==> p[j] < |ks|)
    && forall i, j :: 0 <= i < j < |p| ==> ks[p[i]] >= ks[p[j]]
  }

  /** The first n indices, by insertion. */
  function Inserted(ks: seq<nat>, n: nat): (p: seq<nat>)
    requires n <= |ks|
    ensures forall j :: 0 <= j < |p| ==> p[j] < n
  {
    if n == 0 then []
    else
      var q := Inserted(ks, n - 1);
      var i := Place(ks, q, ks[n - 1]);
      q[..i] + [n - 1] + q[i..]
  }

  lemma {:induction false} InsertedSorts(ks: seq<nat>, n: nat)
    requires n <= |ks|
    ensures S.Permutes(Inserted(ks, n), n) && Falling(ks, Inserted(ks, n))
  {
    hide S.Permutes, Falling;
    if n == 0 {
      assert S.Permutes([], 0) && Falling(ks, []) by { NoneSorts(ks); }
    } else {
      InsertedSorts(ks, n - 1);
      NextSorts(ks, Inserted(ks, n - 1), n - 1);
    }
  }

  lemma NextSorts(ks: seq<nat>, q: seq<nat>, n: nat)
    requires n < |ks| && S.Permutes(q, n) && Falling(ks, q)
    ensures var i := Place(ks, q, ks[n]);
      S.Permutes(q[..i] + [n] + q[i..], n + 1) && Falling(ks, q[..i] + [n] + q[i..])
  {
    var i := Place(ks, q, ks[n]);
    InsertPermutes(q, n, i);
    InsertFalling(ks, q, n, i);
  }

  lemma NoneSorts(ks: seq<nat>)
    ensures S.Permutes([], 0) && Falling(ks, [])
  {
  }

  lemma InsertPermutes(q: seq<nat>, n: nat, i: nat)
    requires S.Permutes(q, n) && i <= n
    ensures S.Permutes(q[..i] + [n] + q[i..], n + 1)
  {
    var p := q[..i] + [n] + q[i..];
    assert forall j :: 0 <= j < n + 1 ==> p[j] == if j < i then q[j] else if j == i then n else q[j - 1];
    forall k | 0 <= k < n + 1
      ensures k in p
    {
      if k == n {
        assert p[i] == k;
      } else {
        assert k in q;
        var j :| 0 <= j < |q| && q[j] == k;
        assert p[if j < i then j else j + 1] == k;
      }
    }
  }

  lemma InsertFalling(ks: seq<nat>, q: seq<nat>, n: nat, i: nat)
    requires Falling(ks, q) && n < |ks| && i <= |q|
    requires forall j :: 0 <= j < i ==> ks[q[j]] >= ks[n]
    requires i < |q| ==> ks[q[i]] < ks[n]
    ensures Falling(ks, q[..i] + [n] + q[i..])
  {
    var p := q[..i] + [n] + q[i..];
    assert forall j :: 0 <= j < |p| ==> p[j] == if j < i then q[j] else if j == i then n else q[j - 1];
    forall j | i <= j < |q|
      ensures ks[q[j]] < ks[n]
    {
      assert j > i ==> ks[q[i]] >= ks[q[j]];
    }
  }

  /** An insertion sort: of equal ranks the first stays first. */
  function ByRank(ks: seq<nat>): seq<nat> { Inserted(ks, |ks|) }

  lemma ByRankSorts()
    ensures S.Sorts(ByRank)
  {
    forall ks: seq<nat>
      ensures S.Permutes(ByRank(ks), |ks|) && Falling(ks, ByRank(ks))
    {
      InsertedSorts(ks, |ks|);
    }
  }
}
