/** Choosing the final response to send upstream: RFC 3261, section 16.7, step 6
    (src/sip-proxy-controller.cpp, bestResponseOrder and forwardBestResponse). */
module ProxyBest {
  import opened Wrappers
  import opened ProxyTransactions
  import S = ProxySpec
  import T = ProxyTimers
  import R = ProxyRuns
  import X = ProxyTheorems

  type Tx = ClientTransaction

  /** The comparator is "rank at least", a total preorder: completed branches first, then 6xx, the
      challenges and their like, other 4xx, 5xx, and the rest. */
  lemma OrderIsByRank(c1: Client, c2: Client)
    ensures S.BestResponseOrder(c1, c2) <==> S.Rank(c1) >= S.Rank(c2)
  {
  }

  function RankAt(s: S.Core, i: nat): nat
    requires i < |s.vec|
  {
    S.Rank(S.At(s, s.vec[i]))
  }

  /** A vector in an order that the sort may leave it in: no branch goes after one that it precedes. */
  predicate InOrder(s: S.Core) { forall i, j :: 0 <= i < j < |s.vec| ==> RankAt(s, i) >= RankAt(s, j) }

  lemma InOrderByComparator(s: S.Core)
    ensures InOrder(s) <==>
      forall i, j :: 0 <= i < j < |s.vec| ==> S.BestResponseOrder(S.At(s, s.vec[i]), S.At(s, s.vec[j]))
  {
    forall i, j | 0 <= i < j < |s.vec|
      ensures RankAt(s, i) >= RankAt(s, j) <==> S.BestResponseOrder(S.At(s, s.vec[i]), S.At(s, s.vec[j]))
    {
      OrderIsByRank(S.At(s, s.vec[i]), S.At(s, s.vec[j]));
    }
    hide S.Rank, S.BestResponseOrder;
  }

  /** Whatever order the sort yields, the vector is then in order. */
  lemma SortedInOrder(s: S.Core, env: S.Env)
    requires R.Distinct(s.vec) && S.Sorts(env.sort)
    ensures InOrder(S.Sorted(s, env))
  {
    var ks := S.Ranks(s.vec, s);
    R.SortFacts(env.sort, ks);
    var p := env.sort(ks);
    var s1 := S.Sorted(s, env);
    hide S.Sorts, S.Rank;
    assert forall i :: 0 <= i < |s.vec| ==> RankAt(s1, i) == ks[p[i]];
  }

  /** In an ordered vector the first branch has the greatest rank. */
  lemma FirstIsTop(s: S.Core, c: Tx)
    requires InOrder(s) && c in s.vec
    ensures S.Rank(S.At(s, s.vec[0])) >= S.Rank(S.At(s, c))
  {
    var i :| 0 <= i < |s.vec| && s.vec[i] == c;
    assert i > 0 ==> RankAt(s, 0) >= RankAt(s, i);
  }

  predicate Failure(r: Client) { r.state == Completed && r.status >= 400 }

  predicate Top(s: S.Core, c: Tx) { forall d :: d in s.vec ==> S.Rank(S.At(s, c)) >= S.Rank(S.At(s, d)) }

  /** If any branch has completed with a response of 400 or more, what goes upstream is the stored
      response of a branch of the highest rank, and never the proxy's own 408. */
  lemma BestIsForwarded(s: S.Core, env: S.Env, c: Tx) returns (top: Tx)
    requires R.Base(s) && S.Sorts(env.sort) && c in s.vec && Failure(S.At(s, c))
    ensures top in s.vec && Top(s, top) && Failure(S.At(s, top))
    ensures S.At(s, top).final.Some? && S.At(s, top).final.value.status == S.At(s, top).status
    ensures S.ForwardBest(s, env).upstream ==
            s.upstream + if env.relayOk then [S.Relayed(S.At(s, top).final.value)] else []
  {
    R.DistinctFact(s);
    hide S.Sorts, S.Sorted, R.Base, InOrder, S.Rank;
    SortedInOrder(s, env);
    R.SortedFacts(s, env);
    var s1 := S.Sorted(s, env);
    top := s1.vec[0];
    FirstIsTop(s1, c);
    assert Failure(S.At(s, top)) by { FailureRank(S.At(s, c), S.At(s, top)); }
    forall d | d in s.vec
      ensures S.Rank(S.At(s, top)) >= S.Rank(S.At(s, d))
    {
      FirstIsTop(s1, d);
    }
    BranchRight(s, top);
  }

  lemma FailureRank(c: Client, top: Client)
    requires Failure(c) && S.Rank(top) >= S.Rank(c)
    ensures Failure(top)
  {
  }

  lemma BranchRight(s: S.Core, c: Tx)
    requires R.Base(s) && c in s.vec
    ensures T.Answered(S.At(s, c))
  {
    R.SoundFact(s, c);
    T.SoundAnswered(S.At(s, c));
  }

  /** What the first branch of an ordered vector leads to. The null message is passed on exactly if the
      best that any branch has is a 2xx, and the proxy's own 408 exactly if the first branch has no
      final response. */
  lemma BestExactly(s: S.Core, relayOk: bool)
    requires R.Base(s) && s.vec != []
    ensures var t := S.At(s, s.vec[0]);
      var u := S.SendBest(s, relayOk);
      && (u.upstream == s.upstream + [S.NullMessage] <==> R.Success(t) && t.final.None?)
      && (u.upstream == s.upstream + [S.Made(408)] <==> t.state != Completed || t.status == 0)
  {
    BranchRight(s, s.vec[0]);
    hide R.Base;
    var u := S.SendBest(s, relayOk);
    assert |u.upstream| > |s.upstream| ==> u.upstream[|s.upstream|] == u.upstream[|u.upstream| - 1];
  }

  /** When no branch has failed: with one completed without a response the sort decides, since a
      redirect and a cancelled branch have the same rank. */
  lemma TieDecides(s: S.Core, redirected: Tx, canceled: Tx)
    requires R.Base(s) && redirected in s.clients && canceled in s.clients && redirected != canceled
    requires S.At(s, redirected).state == Completed && 300 <= S.At(s, redirected).status <= 399
    requires S.At(s, canceled).state == Completed && S.At(s, canceled).status == 0
    ensures InOrder(s.(vec := [redirected, canceled])) && InOrder(s.(vec := [canceled, redirected]))
    ensures S.SendBest(s.(vec := [redirected, canceled]), true).upstream
            == s.upstream + [S.Relayed(S.At(s, redirected).final.value)]
    ensures S.SendBest(s.(vec := [canceled, redirected]), true).upstream == s.upstream + [S.Made(408)]
  {
    StoredOf(s, redirected);
    hide R.Base;
    var ranks := (S.Rank(S.At(s, redirected)), S.Rank(S.At(s, canceled)));
    assert ranks == (1, 1);
    hide S.Rank;
  }

  lemma StoredOf(s: S.Core, c: Tx)
    requires R.Base(s) && c in s.clients
    ensures T.Answered(S.At(s, c))
  {
    R.SoundFact(s, c);
    T.SoundAnswered(S.At(s, c));
  }

  /** The exact condition, for every order the sort may yield: the proxy's own 408 is ruled out if
      some branch failed, or some completed and none of them without a response; otherwise some order
      leads to it. */
  lemma OwnTimeoutRuledOut(s: S.Core, relayOk: bool)
    requires R.Base(s) && InOrder(s)
    requires (exists c :: c in s.vec && Failure(S.At(s, c)))
          || ((exists c :: c in s.vec && S.At(s, c).state == Completed)
              && forall c :: c in s.vec && S.At(s, c).state == Completed ==> S.At(s, c).status != 0)
    ensures S.SendBest(s, relayOk).upstream != s.upstream + [S.Made(408)]
  {
    hide R.Base, InOrder, S.SendBest;
    BestExactly(s, relayOk);
    if c :| c in s.vec && Failure(S.At(s, c)) {
      FirstIsTop(s, c);
      FailureRank(S.At(s, c), S.At(s, s.vec[0]));
    } else {
      var c :| c in s.vec && S.At(s, c).state == Completed;
      FirstIsTop(s, c);
      CompletedRank(S.At(s, c), S.At(s, s.vec[0]));
    }
  }

  lemma CompletedRank(c: Client, top: Client)
    requires c.state == Completed && S.Rank(top) >= S.Rank(c)
    ensures top.state == Completed
  {
  }

  lemma OwnTimeoutPossible(s: S.Core, relayOk: bool) returns (v: seq<Tx>)
    requires R.Base(s)
    requires forall c :: c in s.vec ==> !Failure(S.At(s, c))
    requires (forall c :: c in s.vec ==> S.At(s, c).state != Completed)
          || (exists c :: c in s.vec && S.At(s, c).state == Completed && S.At(s, c).status == 0)
    requires InOrder(s)
    ensures multiset(v) == multiset(s.vec) && InOrder(s.(vec := v))
    ensures S.SendBest(s.(vec := v), relayOk).upstream == s.upstream + [S.Made(408)]
  {
    hide R.Base, InOrder, MovedToFront, S.SendBest;
    if forall c :: c in s.vec ==> S.At(s, c).state != Completed {
      v := s.vec;
    } else {
      var c :| c in s.vec && S.At(s, c).state == Completed && S.At(s, c).status == 0;
      var i :| 0 <= i < |s.vec| && s.vec[i] == c;
      v := MovedToFront(s.vec, i);
      MovedToFrontPermutes(s.vec, i);
      RestRank(S.At(s, s.vec[0]), S.At(s, c));
      hide S.Rank;
      ToFront(s, i);
    }
    NoResponse(s.(vec := v), relayOk);
  }

  /** Unless it failed, no branch ranks above one that completed without a response. */
  lemma RestRank(first: Client, c: Client)
    requires !Failure(first) && c.state == Completed && c.status == 0
    ensures S.Rank(c) >= S.Rank(first)
  {
  }

  lemma NoResponse(s: S.Core, relayOk: bool)
    requires s.vec == [] || S.At(s, s.vec[0]).state != Completed || S.At(s, s.vec[0]).status == 0
    ensures S.SendBest(s, relayOk).upstream == s.upstream + [S.Made(408)]
  {
  }

  function MovedToFront(v: seq<Tx>, i: nat): (w: seq<Tx>)
    requires i < |v|
    ensures |w| == |v| && w[0] == v[i]
    ensures forall j :: 0 < j < |v| ==> w[j] == v[if j <= i then j - 1 else j]
  {
    [v[i]] + v[..i] + v[i + 1..]
  }

  lemma MovedToFrontPermutes(v: seq<Tx>, i: nat)
    requires i < |v|
    ensures multiset(MovedToFront(v, i)) == multiset(v)
  {
    assert v == v[..i] + [v[i]] + v[i + 1..];
  }

  /** A branch of the first one's rank may as well come first. */
  lemma ToFront(s: S.Core, i: nat)
    requires InOrder(s) && i < |s.vec| && RankAt(s, i) >= RankAt(s, 0)
    ensures InOrder(s.(vec := MovedToFront(s.vec, i)))
  {
    var s1 := s.(vec := MovedToFront(s.vec, i));
    hide S.Rank, MovedToFront;
    assert forall j :: 0 < j < |s.vec| ==> RankAt(s1, j) == RankAt(s, if j <= i then j - 1 else j);
  }

  /** While the search is on, no branch has had a 2xx, so the null message is never passed on. */
  lemma SearchingNeverNull(s: S.Core, env: S.Env)
    requires R.Inv(s) && s.searching && S.Sorts(env.sort)
    ensures S.ForwardBest(s, env).upstream != s.upstream + [S.NullMessage]
  {
    var s1 := S.Sorted(s, env);
    R.DistinctFact(s);
    hide R.Inv, R.Base, S.Sorts, S.Sorted, S.SendBest, R.Success;
    R.SortedFacts(s, env);
    if s1.vec == [] {
      NoBranch(s1, env.relayOk);
    } else {
      R.Reindexed(s, s1);
      BestExactly(s1, env.relayOk);
      SearchingFact(s, s1.vec[0]);
    }
  }

  lemma NoBranch(s: S.Core, relayOk: bool)
    requires s.vec == []
    ensures S.SendBest(s, relayOk).upstream != s.upstream + [S.NullMessage]
  {
    assert S.SendBest(s, relayOk).upstream[|s.upstream|] == S.Made(408);
  }

  lemma SearchingFact(s: S.Core, c: Tx)
    requires R.Inv(s) && s.searching && c in s.vec
    ensures !R.Success(S.At(s, c))
  {
  }

  /** Once a request other than INVITE has been answered with a 2xx, a challenge that matches no branch
      still makes the proxy look for a best response, and it passes on the null message. */
  lemma StrayChallengeSendsNull(s: S.Core, c: Tx, r: Response, env: S.Env)
    requires R.Inv(s) && S.Sorts(env.sort) && s.vec == [c] && R.Success(S.At(s, c)) && S.At(s, c).final.None?
    requires (r.status == 401 || r.status == 407) && r.challenge && S.Find(s.vec, s, r).None?
    ensures S.ProcessResponse(s, r, [], env).upstream == s.upstream + [S.NullMessage]
  {
    var s1 := S.RemoveTerminated(s, true);
    hide R.Inv, S.Sorts, S.Sorted, S.ClientResponse, S.Find;
    assert S.Remaining(s.vec[1..], s, true) == [];
    assert s1.vec == [c];
    R.SortedFacts(s1, env);
    var v := S.Sorted(s1, env).vec;
    assert |v| == 1 && v[0] in s1.vec;
  }

  // ---------- timer C ----------

  predicate OthersPending(s: S.Core, c: Tx) { exists d :: d in s.vec && d != c && S.Pending(S.At(s, d)) }

  /** What is left of the proxy once timer C has terminated its branch. */
  function AfterTimerC(s: S.Core, c: Tx, env: S.Env): S.Core {
    S.RemoveTerminated(S.Expire(s, c, C, env), false)
  }

  lemma ExpiredC(s: S.Core, c: Tx, env: S.Env)
    requires R.Inv(s) && c in s.clients && S.At(s, c).Queued(C) > 0
    ensures var s1 := S.Expire(s, c, C, env);
      && S.At(s1, c).state == Terminated && (forall d :: d in s.clients && d != c ==> S.At(s1, d) == S.At(s, d))
      && s1.vec == s.vec && s1.searching == s.searching && s1.upstream == s.upstream + [S.Made(408)]
  {
    T.TimersFireWhereMeant(S.At(s, c), C);
    X.TimerCEnds(S.At(s, c), S.Queues(s, c, env), env.sends(c), env.cancelOk(c));
    hide OnTimer, T.Sound;
  }

  /** Timer C's own 408 needs no search, and what it leaves is exhausted exactly if no other branch is
      pending. */
  lemma TimerCLeaves(s: S.Core, c: Tx, env: S.Env)
    requires R.Inv(s) && c in s.clients && S.At(s, c).Queued(C) > 0
    ensures var s2 := AfterTimerC(s, c, env);
      && s2.searching == s.searching && s2.upstream == s.upstream + [S.Made(408)]
      && (S.Exhausted(s2) <==> !OthersPending(s, c))
      && S.TimerFires(s, c, C, env) == S.BestIfExhausted(s2, env)
  {
    hide R.Inv, R.Base, S.Expire, S.BestIfExhausted, S.Exhausted, OthersPending;
    ExpiredC(s, c, env);
    InTable(s);
    PendingOrGone(s, S.Expire(s, c, C, env), c);
  }

  lemma InTable(s: S.Core)
    requires R.Inv(s)
    ensures R.Distinct(s.vec) && forall d :: d in s.vec ==> d in s.clients
  {
    R.DistinctFact(s);
  }

  lemma PendingOrGone(s: S.Core, s1: S.Core, c: Tx)
    requires R.Distinct(s.vec) && s1.vec == s.vec && S.At(s1, c).state == Terminated
    requires forall d :: d in s.vec && d != c ==> S.At(s1, d) == S.At(s, d)
    ensures S.Exhausted(S.RemoveTerminated(s1, false)) <==> !OthersPending(s, c)
  {
    hide S.Remaining, R.Distinct;
    R.RemainingFacts(s1.vec, s1, false);
    var s2 := S.RemoveTerminated(s1, false);
    if OthersPending(s, c) {
      var d :| d in s.vec && d != c && S.Pending(S.At(s, d));
      assert d in s2.vec && S.At(s2, d) == S.At(s1, d);
    }
    assert forall d :: d in s2.vec ==> S.At(s2, d) == S.At(s1, d) && d != c;
  }

  /** How many responses of the proxy's own choice an expiry of timer C adds, whatever went upstream
      before: never none; two exactly if the search is on, no other branch is pending and the best response
      can be sent; one otherwise. */
  lemma TimerCFinals(s: S.Core, c: Tx, env: S.Env)
    requires R.Inv(s) && c in s.clients && S.At(s, c).Queued(C) > 0 && S.Sorts(env.sort)
    ensures
      var u := S.TimerFires(s, c, C, env);
      var best := S.Sorted(AfterTimerC(s, c, env), env);
      && s.upstream + [S.Made(408)] <= u.upstream
      && (|u.upstream| == |s.upstream| + 2 <==>
            s.searching && !OthersPending(s, c) && (env.relayOk || OwnAnswer(best)))
      && (|u.upstream| == |s.upstream| + 1 || |u.upstream| == |s.upstream| + 2)
      && (s.searching && !OthersPending(s, c) && OwnAnswer(best) ==>
            u.upstream == s.upstream + [S.Made(408), S.Made(408)])
  {
    hide R.Inv, S.TimerFires, AfterTimerC, S.Exhausted, OthersPending, OwnAnswer, S.Sorted, S.Sorts, S.ForwardBest;
    TimerCLeaves(s, c, env);
    var s2 := AfterTimerC(s, c, env);
    if s2.searching && S.Exhausted(s2) {
      StillRight(s, c, env);
      BestCounts(s2, env);
    }
  }

  lemma StillRight(s: S.Core, c: Tx, env: S.Env)
    requires R.Inv(s) && c in s.clients && S.At(s, c).Queued(C) > 0
    ensures R.Inv(AfterTimerC(s, c, env))
  {
    hide R.Inv, S.Expire;
    X.ExpireKeeps(s, c, C, env);
    X.Remove(S.Expire(s, c, C, env), false);
  }

  /** Without a branch that completed with a response at the front, the proxy answers 408 itself. */
  predicate OwnAnswer(s: S.Core) {
    s.vec == [] || S.At(s, s.vec[0]).state != Completed || S.At(s, s.vec[0]).status == 0
  }

  lemma BestCounts(s: S.Core, env: S.Env)
    requires R.Inv(s) && s.searching && S.Sorts(env.sort)
    ensures var u, best := S.ForwardBest(s, env), S.Sorted(s, env);
      && s.upstream <= u.upstream
      && |u.upstream| == |s.upstream| + (if env.relayOk || OwnAnswer(best) then 1 else 0)
      && (OwnAnswer(best) ==> u.upstream == s.upstream + [S.Made(408)])
  {
    var best := S.Sorted(s, env);
    X.Split(s);
    R.DistinctFact(s);
    hide R.Inv, R.Base, S.Sorts, S.Sorted, S.SendBest, OwnAnswer;
    R.SortedFacts(s, env);
    if best.vec != [] {
      R.Reindexed(s, best);
      BranchRight(best, best.vec[0]);
      SearchingFact(s, best.vec[0]);
    }
    SentCounts(best, env.relayOk);
  }

  lemma SentCounts(s: S.Core, relayOk: bool)
    requires s.vec != [] ==> T.Answered(S.At(s, s.vec[0])) && !R.Success(S.At(s, s.vec[0]))
    ensures var u := S.SendBest(s, relayOk);
      && s.upstream <= u.upstream
      && |u.upstream| == |s.upstream| + (if relayOk || OwnAnswer(s) then 1 else 0)
      && (OwnAnswer(s) ==> u.upstream == s.upstream + [S.Made(408)])
  {
  }
}
