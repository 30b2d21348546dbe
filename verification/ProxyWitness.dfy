/** Runs of a proxy that reach what its assertions and the standard rule out
    (src/sip-proxy-controller.cpp). */
module ProxyWitnesses {
  import opened Wrappers
  import opened ProxyTransactions
  import S = ProxySpec
  import T = ProxyTimers
  import R = ProxyRuns
  import X = ProxyTheorems
  import B = ProxyBest
  import Y = ProxySorts

  type Tx = ClientTransaction

  /** Every send goes well, nothing is lost at the timer queues, and the sort is a sort. */
  ghost predicate Smooth(env: S.Env, vec: seq<Tx>) {
    && S.Sorts(env.sort) && env.relayOk
    && forall c :: c in vec ==> env.sends(c) == Sent && env.cancelOk(c) && env.lost(c) == {}
  }

  /** Such an environment; the sort is by insertion. */
  const SMOOTH: S.Env := S.Env(c => Sent, c => true, true, Y.ByRank, c => {})

  lemma SmoothHolds(vec: seq<Tx>)
    ensures Smooth(SMOOTH, vec)
  {
    Y.ByRankSorts();
  }

  /** A branch just after its request was sent. */
  predicate JustSent(t: Client, c: Tx, invite: bool) {
    && t.branch == c.branch && t.transmitCount == 1 && !t.canceled && t.status == 0
    && t.state == (if invite then Calling else Trying) && t.sipMethod == (if invite then Invite else Other)
    && (invite ==> t.Queued(A) == 1 && t.Queued(C) == 1) && t.Queued(K) == 0
  }

  lemma SendsOne(c: Tx, invite: bool, q: Adds)
    requires q.lost == {}
    ensures var (t, ok) := ForwardRequest(NewClient(c.branch, c.target, c.initialRSeq), invite, q, Sent);
      ok && JustSent(t, c, invite)
  {
  }

  lemma StartsOne(s: S.Core, c: Tx, i: nat, env: S.Env)
    requires i < |s.vec| && s.vec[i] == c && S.At(s, c) == NewClient(c.branch, c.target, c.initialRSeq)
    requires env.sends(c) == Sent && env.lost(c) == {}
    ensures var (u, ok) := S.Launch(s, c, env);
      && ok && JustSent(S.At(u, c), c, s.config.invite)
      && u == s.(clients := u.clients, launches := u.launches) && (forall d :: d != c ==> S.At(u, d) == S.At(s, d))
  {
    SendsOne(c, s.config.invite, S.Queues(s, c, env));
    hide ForwardRequest;
  }

  /** A proxy with one branch starts. */
  lemma BeginsOne(config: S.Config, c: Tx, env: S.Env)
    requires Smooth(env, [c])
    ensures var s := S.Begin(S.NewCore(config, [c]), env);
      && R.Inv(s) && s.vec == [c] && c in s.clients && s.live && s.searching && s.upstream == [] && s.config == config
      && JustSent(S.At(s, c), c, config.invite)
  {
    X.BeginKeeps(config, [c], env);
    var s0 := S.NewCore(config, [c]);
    assert S.NewClients(S.Put(S.Core(config, map[], [c], true, false, true, [], [], []), c,
                              NewClient(c.branch, c.target, c.initialRSeq)), [c][1..]) == s0;
    assert S.At(s0, c) == NewClient(c.branch, c.target, c.initialRSeq);
    StartsOne(s0, c, 0, env);
    hide R.Inv, S.Launch;
    var s1 := S.Launch(s0, c, env).0;
    assert S.StartFrom(s1, 1, env) == (s1, 0);
  }

  ghost predicate Run(config: S.Config, targets: seq<Tx>, env: S.Env, events: seq<X.Event>, states: seq<S.Core>) {
    X.IsRun(X.Opening(config, targets, env), events, states)
  }

  lemma RunStarts(config: S.Config, targets: seq<Tx>, env: S.Env)
    requires R.Distinct(targets)
    ensures Run(config, targets, env, [], [S.Begin(S.NewCore(config, targets), env)])
  {
  }

  lemma RunGoesOn(config: S.Config, targets: seq<Tx>, env: S.Env, events: seq<X.Event>, states: seq<S.Core>, e: X.Event)
    requires Run(config, targets, env, events, states)
    requires var s := states[|events|]; X.Enabled(s, e) && S.Sorts(e.env.sort)
    ensures Run(config, targets, env, events + [e], states + [X.Step(states[|events|], e)])
  {
    hide X.Step, X.Enabled, S.Sorts, S.Begin;
  }

  // ---------- 408 twice ----------

  /** One event after the request was sent, timer C answers 408 twice. */
  lemma TwoTimeouts(config: S.Config, c: Tx) returns (events: seq<X.Event>, states: seq<S.Core>)
    requires config.invite
    ensures Run(config, [c], SMOOTH, events, states) && |events| == 1
    ensures states[1].upstream == [S.Made(408), S.Made(408)]
  {
    var env := SMOOTH;
    SmoothHolds([c]);
    BeginsOne(config, c, env);
    RunStarts(config, [c], env);
    var s, e := S.Begin(S.NewCore(config, [c]), env), X.TimerFires(c, C, env);
    RunGoesOn(config, [c], env, [], [s], e);
    events, states := [] + [e], [s] + [X.Step(s, e)];
    B.TimerCFinals(s, c, env);
    LastBranchGone(s, c, env);
    assert s.upstream + [S.Made(408), S.Made(408)] == [S.Made(408), S.Made(408)];
  }

  lemma LastBranchGone(s: S.Core, c: Tx, env: S.Env)
    requires R.Inv(s) && s.vec == [c] && c in s.clients && S.At(s, c).Queued(C) > 0 && S.Sorts(env.sort)
    ensures B.OwnAnswer(S.Sorted(B.AfterTimerC(s, c, env), env)) && !B.OthersPending(s, c)
  {
    B.ExpiredC(s, c, env);
    Emptied(S.Expire(s, c, C, env), c);
    hide R.Inv, S.Expire, S.Sorts, S.RemoveTerminated, S.Sorted;
    R.SortedFacts(B.AfterTimerC(s, c, env), env);
  }

  lemma Emptied(s: S.Core, c: Tx)
    requires s.vec == [c] && S.At(s, c).state == Terminated
    ensures S.RemoveTerminated(s, false).vec == []
  {
    assert S.Remaining([c][1..], s, false) == [];
  }

  // ---------- responses ----------

  function Reply(c: Tx, status: Status): Response { Response(c.branch, Own, false, status, None, [], false) }

  lemma {:induction false} AllRemain(v: seq<Tx>, s: S.Core)
    requires forall c :: c in v ==> S.At(s, c).state != Terminated
    ensures S.Remaining(v, s, false) == v
  {
    if v != [] {
      assert v == [v[0]] + v[1..];
      AllRemain(v[1..], s);
    }
  }

  /** A provisional response to a pending INVITE branch is relayed, and timer C starts again. */
  lemma Rings(s: S.Core, c: Tx, env: S.Env)
    requires R.Inv(s) && c in s.vec && S.Find(s.vec, s, Reply(c, 180)) == Some(c) && env.relayOk && env.lost(c) == {}
    requires S.At(s, c).sipMethod == Invite && S.Pending(S.At(s, c))
    requires s.live && forall d :: d in s.vec ==> S.At(s, d).state != Terminated
    ensures var u := S.ProcessResponse(s, Reply(c, 180), [], env);
      && u == s.(clients := u.clients, upstream := s.upstream + [S.Relayed(Reply(c, 180))])
      && u.clients == s.clients[c := S.At(u, c)]
      && S.At(u, c).state == Proceeding && S.At(u, c).Queued(C) == 1 && S.At(u, c).sipMethod == Invite
      && S.At(u, c).branch == S.At(s, c).branch && S.At(u, c).transmitCount == S.At(s, c).transmitCount
  {
    var r := Reply(c, 180);
    RingRelayed(s, c, env);
    hide R.Inv, S.ClientResponse, S.Find;
    var s1 := S.ClientResponse(s, c, r, [], env);
    AllRemain(s1.vec, s1);
    assert S.RemoveTerminated(s1, false) == s1;
    assert c in s1.vec && S.Pending(S.At(s1, c));
  }

  lemma RingRelayed(s: S.Core, c: Tx, env: S.Env)
    requires R.Inv(s) && c in s.vec && env.relayOk && env.lost(c) == {}
    requires S.At(s, c).sipMethod == Invite && S.Pending(S.At(s, c))
    ensures var u := S.ClientResponse(s, c, Reply(c, 180), [], env);
      && u == s.(clients := u.clients, upstream := s.upstream + [S.Relayed(Reply(c, 180))])
      && c in s.clients && u.clients == s.clients[c := S.At(u, c)]
      && S.At(u, c).state == Proceeding && S.At(u, c).Queued(C) == 1 && S.At(u, c).sipMethod == Invite
      && S.At(u, c).branch == S.At(s, c).branch && S.At(u, c).transmitCount == S.At(s, c).transmitCount
  {
    X.VectorFact(s, c);
    RingTaken(S.At(s, c), Reply(c, 180), S.Queues(s, c, env)) by { X.TableRight(s, c); }
    hide R.Inv, TakeStatus, Settle;
  }

  lemma RingTaken(t: Client, r: Response, q: Adds)
    requires T.Inv(t) && S.Pending(t) && t.sipMethod == Invite && 100 < r.status < 200 && q.lost == {}
    ensures var u := Settle(TakeStatus(t, r, q), r);
      && u.state == Proceeding && u.Queued(C) == 1 && u.sipMethod == Invite
      && u.branch == t.branch && u.transmitCount == t.transmitCount
  {
    hide T.Inv, Settle;
    TimerCSingle(t);
    var t1 := SetState(t.(status := r.status), Proceeding, q);
    ProceedingKeepsC(t.(status := r.status), q);
    hide SetState;
    assert TakeStatus(t, r, q) == t1.(timerC := Start(Stop(t1.timerC), false));
    SettledRing(TakeStatus(t, r, q), r);
  }

  lemma TimerCSingle(t: Client)
    requires T.Inv(t)
    ensures T.Single(t.timerC)
  {
  }

  lemma ProceedingKeepsC(t: Client, q: Adds)
    requires t.sipMethod == Invite
    ensures var u := SetState(t, Proceeding, q);
      && u.state == Proceeding && u.timerC == t.timerC && u.sipMethod == Invite
      && u.branch == t.branch && u.transmitCount == t.transmitCount
  {
  }

  lemma SettledRing(t: Client, r: Response)
    requires 100 < r.status < 200
    ensures Settle(t, r) == t.(rseq := Settle(t, r).rseq)
  {
  }

  // ---------- 408 after a 2xx ----------

  lemma SecondRemains(s: S.Core, c: Tx, d: Tx, also: bool)
    requires S.Gone(S.At(s, c), also) && !S.Gone(S.At(s, d), also)
    ensures S.Remaining([c, d], s, also) == [d]
  {
    hide S.Gone;
    assert [c, d][1..] == [d] && [d][1..] == [];
    assert S.Remaining([], s, also) == [];
    assert S.Remaining([d], s, also) == [d];
  }

  /** A 2xx for the first of two branches leaves the second, which was proceeding, with a CANCEL. */
  lemma Succeeds(s: S.Core, c: Tx, d: Tx, env: S.Env)
    requires R.Inv(s) && Smooth(env, [c, d]) && s.vec == [c, d] && c != d && s.live
    requires S.At(s, c).state == Calling && S.At(s, c).transmitCount > 0 && S.At(s, c).branch == c.branch
    requires S.At(s, d).state == Proceeding && S.At(s, d).sipMethod == Invite
    ensures var u := S.ProcessResponse(s, Reply(c, 200), [], env);
      && u.vec == [d] && u.live && !u.searching && d in u.clients
      && u.upstream == s.upstream + [S.Relayed(Reply(c, 200))]
      && S.At(u, d) == CancelRequest(S.At(s, d), true, S.Queues(s, d, env)).0
  {
    hide R.Inv, S.ClientResponse, CancelRequest, S.Find, Smooth, S.Remaining;
    var r := Reply(c, 200);
    FoundFirst(s, c, r);
    SmoothAt(env, [c, d], d);
    SuccessTaken(s, c, d, env);
    var s4 := S.ClientResponse(s, c, r, [], env);
    AllRemain(s4.vec, s4);
    assert S.RemoveTerminated(s4, false) == s4;
  }

  lemma SmoothAt(env: S.Env, vec: seq<Tx>, c: Tx)
    requires Smooth(env, vec) && c in vec
    ensures env.relayOk && env.sends(c) == Sent && env.cancelOk(c) && env.lost(c) == {}
  {
  }

  lemma FoundFirst(s: S.Core, c: Tx, r: Response)
    requires s.vec != [] && s.vec[0] == c && !r.prack
    requires r.branch == S.At(s, c).branch && S.At(s, c).transmitCount > 0
    ensures S.Find(s.vec, s, r) == Some(c)
  {
  }

  lemma SuccessTaken(s: S.Core, c: Tx, d: Tx, env: S.Env)
    requires R.Inv(s) && env.cancelOk(d) && env.relayOk && s.vec == [c, d] && c != d && s.live
    requires S.At(s, c).state == Calling && S.At(s, c).transmitCount > 0
    requires S.At(s, d).state == Proceeding && S.At(s, d).sipMethod == Invite
    ensures var u := S.ClientResponse(s, c, Reply(c, 200), [], env);
      && u.vec == [d] && u.live && !u.searching && d in u.clients
      && u.upstream == s.upstream + [S.Relayed(Reply(c, 200))]
      && S.At(u, d) == CancelRequest(S.At(s, d), true, S.Queues(s, d, env)).0 && S.At(u, d).state == Proceeding
  {
    hide R.Inv, R.Base, T.Inv, T.Sound, TakeStatus, Settle, S.NotifyForwarded200OK, CancelRequest;
    X.VectorFact(s, c);
    X.VectorFact(s, d);
    X.TableRight(s, c);
    var r := Reply(c, 200);
    var t1 := TakeStatus(S.At(s, c), r, S.Queues(s, c, env));
    CallingSucceeds(S.At(s, c), r, S.Queues(s, c, env));
    X.TakenLeaves(s, r, [], env, c);
    var s1 := S.Put(s, c, t1);
    R.SuccessSettles(S.At(s, c), r, env.cancelOk(c), S.Queues(s, c, env));
    T.InvSound(t1);
    R.PutKeeps(s, c, t1) by { X.Split(s); }
    NotifiedLeaves(s1, c, d, env);
    var s2 := S.NotifyForwarded200OK(s1, env);
    var s3 := S.Put(s2, c, Settle(S.At(s2, c), r));
    assert S.ClientResponse(s, c, r, [], env) == S.Answer(s3, S.Relayed(r));
  }

  lemma CallingSucceeds(t: Client, r: Response, q: Adds)
    requires T.Inv(t) && t.state == Calling && 200 <= r.status <= 299
    ensures TakeStatus(t, r, q).state == Terminated
  {
  }

  lemma NotifiedLeaves(s: S.Core, c: Tx, d: Tx, env: S.Env)
    requires R.Base(s) && s.vec == [c, d] && c != d && S.At(s, c).state == Terminated && env.cancelOk(d)
    requires S.At(s, d).state == Proceeding
    ensures var u := S.NotifyForwarded200OK(s, env);
      && u.vec == [d] && u.live == s.live && !u.searching && u.clients.Keys == s.clients.Keys
      && S.At(u, d) == CancelRequest(S.At(s, d), true, S.Queues(s, d, env)).0 && S.At(u, d).state == Proceeding
  {
    hide R.Base, T.Sound, CancelRequest, S.CancelOutstanding, R.CancelsRecorded;
    R.TableFact(s, 0);
    R.TableFact(s, 1);
    R.SoundFact(s, c);
    R.SoundFact(s, d);
    R.CancelKeeps(s, env);
    R.CancelFacts(S.At(s, c), env.cancelOk(c), S.Queues(s, c, env));
    R.CancelFacts(S.At(s, d), true, S.Queues(s, d, env));
    var s0 := s.(searching := false);
    var s1 := S.CancelOutstanding(s, env);
    assert S.At(s0, c) == S.At(s, c) && S.At(s0, d) == S.At(s, d);
    assert S.At(s1, c) == CancelRequest(S.At(s0, c), env.cancelOk(c), S.Queues(s0, c, env)).0;
    assert S.At(s1, d) == CancelRequest(S.At(s0, d), env.cancelOk(d), S.Queues(s0, d, env)).0;
    SecondRemains(s1, c, d, true);
  }

  /** A proxy with two branches that may start at once. */
  lemma BeginsTwo(config: S.Config, c: Tx, d: Tx, env: S.Env)
    requires Smooth(env, [c, d]) && c != d && config.invite && !config.serial
    ensures var s := S.Begin(S.NewCore(config, [c, d]), env);
      && s.vec == [c, d] && s.live && s.upstream == []
      && JustSent(S.At(s, c), c, true) && JustSent(S.At(s, d), d, true)
  {
    hide JustSent, S.Launch, S.NewCore, S.Sorts;
    var s0 := S.NewCore(config, [c, d]);
    assert c in [c, d] && d in [c, d];
    NewTwo(config, c, d);
    StartsOne(s0, c, 0, env);
    var s1 := S.Launch(s0, c, env).0;
    StartsOne(s1, d, 1, env);
    var s2 := S.Launch(s1, d, env).0;
    assert S.StartFrom(s2, 2, env) == (s2, 0);
    assert S.StartFrom(s1, 1, env) == (s2, 1);
    assert S.StartFrom(s0, 0, env) == (s2, 2);
  }

  lemma NewTwo(config: S.Config, c: Tx, d: Tx)
    requires c != d
    ensures var s := S.NewCore(config, [c, d]);
      && s.vec == [c, d] && s.live && s.upstream == [] && s.searching && s.config == config
      && S.At(s, c) == NewClient(c.branch, c.target, c.initialRSeq)
      && S.At(s, d) == NewClient(d.branch, d.target, d.initialRSeq)
  {
    var s := S.Core(config, map[], [c, d], true, false, true, [], [], []);
    var s1 := S.Put(s, c, NewClient(c.branch, c.target, c.initialRSeq));
    var s2 := S.Put(s1, d, NewClient(d.branch, d.target, d.initialRSeq));
    assert [c, d][1..] == [d] && [d][1..] == [];
    assert S.NewClients(s2, []) == s2;
    assert S.NewClients(s1, [d]) == s2;
    assert S.NewClients(s, [c, d]) == s2;
  }

  lemma ProceedingCanceled(t: Client, q: Adds)
    requires t.state == Proceeding
    ensures var u := CancelRequest(t, true, q).0;
      u.state == Proceeding && u.branch == t.branch && u.transmitCount == t.transmitCount && u.sipMethod == t.sipMethod
  {
  }

  predicate Ringing(t: Client, d: Tx) {
    t.state == Proceeding && t.sipMethod == Invite && t.branch == d.branch && t.transmitCount > 0
  }

  predicate Rang(s: S.Core, c: Tx, d: Tx) {
    && s.vec == [c, d] && s.live && s.upstream == [S.Relayed(Reply(d, 180))]
    && S.At(s, c).state == Calling && S.At(s, c).transmitCount > 0 && S.At(s, c).branch == c.branch
    && Ringing(S.At(s, d), d)
  }

  predicate Over(s: S.Core, d: Tx, sent: seq<S.Up>) {
    s.vec == [d] && d in s.clients && s.live && !s.searching && s.upstream == sent && Ringing(S.At(s, d), d)
  }

  lemma FindsSecond(s: S.Core, c: Tx, d: Tx)
    requires c.branch != d.branch && S.At(s, c).branch == c.branch
    requires S.At(s, d).branch == d.branch && S.At(s, d).transmitCount > 0
    ensures S.Find([c, d], s, Reply(d, 180)) == Some(d)
  {
    assert [c, d][1..] == [d];
    assert S.Find([d], s, Reply(d, 180)) == Some(d);
  }

  lemma FirstRing(s: S.Core, c: Tx, d: Tx, env: S.Env)
    requires R.Inv(s) && Smooth(env, [c, d]) && c != d && c.branch != d.branch && s.vec == [c, d] && s.live
    requires s.upstream == [] && JustSent(S.At(s, c), c, true) && JustSent(S.At(s, d), d, true)
    ensures Rang(S.ProcessResponse(s, Reply(d, 180), [], env), c, d)
  {
    hide R.Inv, S.ProcessResponse, S.Sorts, S.Find, S.Matches;
    FindsSecond(s, c, d);
    assert d in [c, d] && S.Pending(S.At(s, d)) && env.lost(d) == {};
    Rings(s, d, env);
    assert [] + [S.Relayed(Reply(d, 180))] == [S.Relayed(Reply(d, 180))];
  }

  lemma ThenSuccess(s: S.Core, c: Tx, d: Tx, env: S.Env)
    requires R.Inv(s) && Smooth(env, [c, d]) && c != d && Rang(s, c, d)
    ensures Over(S.ProcessResponse(s, Reply(c, 200), [], env), d, [S.Relayed(Reply(d, 180)), S.Relayed(Reply(c, 200))])
  {
    Succeeds(s, c, d, env);
    ProceedingCanceled(S.At(s, d), S.Queues(s, d, env));
    hide R.Inv, S.ProcessResponse, CancelRequest, S.Sorts;
  }

  lemma LateRing(s: S.Core, d: Tx, env: S.Env, sent: seq<S.Up>)
    requires R.Inv(s) && env.relayOk && env.lost(d) == {} && Over(s, d, sent)
    ensures var u := S.ProcessResponse(s, Reply(d, 180), [], env);
      Over(u, d, sent + [S.Relayed(Reply(d, 180))]) && S.At(u, d).Queued(C) == 1
  {
    Rings(s, d, env);
    hide R.Inv, S.ProcessResponse;
  }

  lemma ThenTimeout(s: S.Core, d: Tx, env: S.Env, sent: seq<S.Up>)
    requires R.Inv(s) && S.Sorts(env.sort) && Over(s, d, sent) && S.At(s, d).Queued(C) > 0
    ensures S.TimerFires(s, d, C, env).upstream == sent + [S.Made(408)]
  {
    B.TimerCFinals(s, d, env);
  }

  predicate TwoAtOnce(config: S.Config, c: Tx, d: Tx) {
    c != d && c.branch != d.branch && config.invite && !config.serial
  }

  lemma RunOpens(config: S.Config, targets: seq<Tx>, env: S.Env) returns (s: S.Core)
    requires R.Distinct(targets)
    ensures s == S.Begin(S.NewCore(config, targets), env)
    ensures R.Inv(s) && Run(config, targets, env, [], [s])
  {
    s := S.Begin(S.NewCore(config, targets), env);
    RunStarts(config, targets, env);
    RunRight(config, targets, env, [], [s]);
  }

  lemma OpensRinging(config: S.Config, c: Tx, d: Tx, env: S.Env)
    requires Smooth(env, [c, d]) && TwoAtOnce(config, c, d)
    ensures var s := S.Begin(S.NewCore(config, [c, d]), env);
      s.live && Rang(S.ProcessResponse(s, Reply(d, 180), [], env), c, d)
  {
    BeginsTwo(config, c, d, env);
    var s := RunOpens(config, [c, d], env);
    hide S.Begin, S.NewCore, S.ProcessResponse, S.Sorts, R.Inv, JustSent, Rang;
    FirstRing(s, c, d, env);
  }

  lemma RunRings(config: S.Config, c: Tx, d: Tx, env: S.Env) returns (events: seq<X.Event>, states: seq<S.Core>)
    requires Smooth(env, [c, d]) && TwoAtOnce(config, c, d)
    ensures Run(config, [c, d], env, events, states) && |events| == 1 && |states| == 2
    ensures R.Inv(states[1]) && Rang(states[1], c, d)
  {
    hide Run, S.Begin, S.NewCore, S.ProcessResponse, R.Inv, Rang, R.Distinct, Smooth, TwoAtOnce;
    Allowed(config, c, d, env);
    OpensRinging(config, c, d, env);
    var s := RunOpens(config, [c, d], env);
    events, states := Responds(config, [c, d], env, [], [s], Reply(d, 180));
    RunRight(config, [c, d], env, events, states);
  }

  lemma Allowed(config: S.Config, c: Tx, d: Tx, env: S.Env)
    requires Smooth(env, [c, d]) && TwoAtOnce(config, c, d)
    ensures S.Sorts(env.sort) && R.Distinct([c, d])
  {
  }

  lemma RunSucceeds(config: S.Config, c: Tx, d: Tx, env: S.Env) returns (events: seq<X.Event>, states: seq<S.Core>)
    requires Smooth(env, [c, d]) && TwoAtOnce(config, c, d)
    ensures Run(config, [c, d], env, events, states) && |events| == 2 && |states| == 3
    ensures R.Inv(states[2]) && Over(states[2], d, [S.Relayed(Reply(d, 180)), S.Relayed(Reply(c, 200))])
  {
    events, states := RunRings(config, c, d, env);
    hide Run, S.ProcessResponse, S.Sorts, R.Inv, Over, Ringing;
    ThenSuccess(states[1], c, d, env);
    events, states := Responds(config, [c, d], env, events, states, Reply(c, 200));
    RunRight(config, [c, d], env, events, states);
  }

  lemma RunRingsLate(config: S.Config, c: Tx, d: Tx, env: S.Env) returns (events: seq<X.Event>, states: seq<S.Core>)
    requires Smooth(env, [c, d]) && TwoAtOnce(config, c, d)
    ensures Run(config, [c, d], env, events, states) && |events| == 3 && |states| == 4
    ensures R.Inv(states[3]) && S.At(states[3], d).Queued(C) == 1
    ensures Over(states[3], d, [S.Relayed(Reply(d, 180)), S.Relayed(Reply(c, 200)), S.Relayed(Reply(d, 180))])
  {
    hide Run, S.ProcessResponse, S.Sorts, R.Inv, Ringing;
    events, states := RunSucceeds(config, c, d, env);
    var sent := [S.Relayed(Reply(d, 180)), S.Relayed(Reply(c, 200))];
    assert d in [c, d];
    LateRing(states[2], d, env, sent);
    events, states := Responds(config, [c, d], env, events, states, Reply(d, 180));
    RunRight(config, [c, d], env, events, states);
    assert sent + [S.Relayed(Reply(d, 180))] ==
           [S.Relayed(Reply(d, 180)), S.Relayed(Reply(c, 200)), S.Relayed(Reply(d, 180))];
  }

  /** The search is over and the caller has had a 200: a late 180 on the cancelled branch starts timer C
      again, and its expiry answers 408 all the same. */
  lemma TimeoutAfterSuccess(config: S.Config, c: Tx, d: Tx)
    returns (events: seq<X.Event>, states: seq<S.Core>)
    requires TwoAtOnce(config, c, d)
    ensures Run(config, [c, d], SMOOTH, events, states) && |events| == 4 && |states| == 5
    ensures states[4].upstream ==
            [S.Relayed(Reply(d, 180)), S.Relayed(Reply(c, 200)), S.Relayed(Reply(d, 180))] + [S.Made(408)]
  {
    var env := SMOOTH;
    SmoothHolds([c, d]);
    events, states := RunRingsLate(config, c, d, env);
    hide Run, S.TimerFires, S.Sorts, R.Inv, Ringing;
    ThenTimeout(states[3], d, env,
                [S.Relayed(Reply(d, 180)), S.Relayed(Reply(c, 200)), S.Relayed(Reply(d, 180))]);
    events, states := Expires(config, [c, d], env, events, states, d, C);
  }

  lemma Responds(config: S.Config, targets: seq<Tx>, env: S.Env, events: seq<X.Event>, states: seq<S.Core>, r: Response)
    returns (events': seq<X.Event>, states': seq<S.Core>)
    requires Run(config, targets, env, events, states) && |states| == |events| + 1
    requires states[|events|].live && r.contacts == [] && S.Sorts(env.sort)
    ensures |events'| == |events| + 1 && Run(config, targets, env, events', states')
    ensures states' == states + [S.ProcessResponse(states[|events|], r, [], env)]
  {
    hide Run, S.ProcessResponse, S.Sorts;
    events', states' := Extended(config, targets, env, events, states, X.ResponseArrives(r, [], env));
  }

  lemma Expires(config: S.Config, targets: seq<Tx>, env: S.Env, events: seq<X.Event>, states: seq<S.Core>,
                c: Tx, t: Timer)
    returns (events': seq<X.Event>, states': seq<S.Core>)
    requires Run(config, targets, env, events, states) && |states| == |events| + 1 && S.Sorts(env.sort)
    requires var s := states[|events|]; c in s.clients && S.At(s, c).Queued(t) > 0 && t != A && t != E
    ensures |events'| == |events| + 1 && Run(config, targets, env, events', states')
    ensures states' == states + [S.TimerFires(states[|events|], c, t, env)]
  {
    hide Run, S.TimerFires, S.Sorts;
    events', states' := Extended(config, targets, env, events, states, X.TimerFires(c, t, env));
  }

  lemma Extended(config: S.Config, targets: seq<Tx>, env: S.Env, events: seq<X.Event>, states: seq<S.Core>, e: X.Event)
    returns (events': seq<X.Event>, states': seq<S.Core>)
    requires Run(config, targets, env, events, states) && |states| == |events| + 1
    requires var s := states[|events|]; X.Enabled(s, e) && S.Sorts(e.env.sort)
    ensures events' == events + [e] && states' == states + [X.Step(states[|events|], e)]
    ensures Run(config, targets, env, events', states')
  {
    RunGoesOn(config, targets, env, events, states, e);
    events', states' := events + [e], states + [X.Step(states[|events|], e)];
  }

  lemma RunRight(config: S.Config, targets: seq<Tx>, env: S.Env, events: seq<X.Event>, states: seq<S.Core>)
    requires Run(config, targets, env, events, states)
    ensures |states| == |events| + 1 && R.Inv(states[|events|])
  {
    X.InvOfRun(X.Opening(config, targets, env), events, states, |events|);
  }

  // ---------- timers D and K ----------

  lemma CancelsOne(s: S.Core, c: Tx, env: S.Env)
    requires R.Inv(s) && s.vec == [c] && c in s.clients && s.live && env.lost(c) == {} && JustSent(S.At(s, c), c, true)
    ensures var u := S.CancelArrives(s, env);
      && u.vec == [c] && c in u.clients && u.live && !u.searching
      && S.At(u, c) == CancelRequest(S.At(s, c), env.cancelOk(c), S.Queues(s, c, env)).0
  {
    hide CancelRequest;
    var s1 := S.Answer(s.(canceled := true), S.Made(487)).(searching := false);
    assert S.CancelFrom(S.CancelOne(s1, c, env), 1, env) == S.CancelOne(s1, c, env);
    assert S.At(s1, c) == S.At(s, c);
  }

  /** A branch cancelled before any response, and what a late response then makes of it. */
  lemma LateForD(t: Client, r: Response, ok: bool, q: Adds, q2: Adds)
    requires T.Inv(t) && t.state == Calling && q.lost == {} && r.cseq == Own
    ensures var u := CancelRequest(t, ok, q).0;
      && LateForCanceled(u, r) && u.branch == t.branch && u.transmitCount == t.transmitCount
      && var v := CancelRequest(SetState(u, Proceeding, q2), ok, q2).0;
         v.state == Proceeding && v.Queued(D) == 1 && v.late
  {
    var u := CancelRequest(t, ok, q).0;
    CanceledFirst(t, ok, q);
    hide T.Inv, CancelRequest, SetState;
    LateReopens(u, ok, q2);
  }

  lemma CanceledFirst(t: Client, ok: bool, q: Adds)
    requires T.Inv(t) && t.state == Calling && q.lost == {}
    ensures var u := CancelRequest(t, ok, q).0;
      && u.state == Completed && u.timerD == Handle(true, 1, false) && u.canceled && u.status == 0
      && u.sipMethod == Invite && u.branch == t.branch && u.transmitCount == t.transmitCount
  {
  }

  lemma LateReopens(u: Client, ok: bool, q: Adds)
    requires u.state == Completed && u.timerD == Handle(true, 1, false) && u.sipMethod == Invite
    ensures var v := CancelRequest(SetState(u, Proceeding, q), ok, q).0;
      v.state == Proceeding && v.Queued(D) == 1 && v.late
  {
  }

  /** What a late response makes of a branch that was cancelled before any. */
  function Back(s: S.Core, c: Tx, env: S.Env): Client {
    var q := S.Queues(s, c, env);
    CancelRequest(SetState(S.At(s, c), Proceeding, q), env.cancelOk(c), q).0
  }

  lemma TakenLate(s: S.Core, c: Tx, env: S.Env)
    requires s.vec == [c] && c in s.clients && !s.searching && s.live && S.Find(s.vec, s, Reply(c, 180)) == Some(c)
    requires LateForCanceled(S.At(s, c), Reply(c, 180))
    requires Back(s, c, env).state == Proceeding
    ensures var u := S.ProcessResponse(s, Reply(c, 180), [], env);
      && c in u.clients
      && S.At(u, c) == Back(s, c, env)
  {
    hide CancelRequest, SetState, S.Find;
    var s1 := S.ClientResponse(s, c, Reply(c, 180), [], env);
    AllRemain(s1.vec, s1);
  }

  /** The caller cancels, a late 180 comes: timer D is queued for a branch that is proceeding. */
  lemma TimerDFindsProceeding(config: S.Config, c: Tx) returns (events: seq<X.Event>, states: seq<S.Core>)
    requires config.invite
    ensures Run(config, [c], SMOOTH, events, states) && |events| == 2 && |states| == 3
    ensures X.Enabled(states[2], X.TimerFires(c, D, SMOOTH)) && S.At(states[2], c).state == Proceeding
  {
    var env := SMOOTH;
    SmoothHolds([c]);
    hide Run, S.Begin, S.NewCore, S.ProcessResponse, S.CancelArrives, R.Inv, R.Distinct, Smooth, S.Sorts;
    hide CancelRequest, JustSent, T.Inv, T.Sound;
    AllowedOne(c, env);
    BeginsOne(config, c, env);
    var s := RunOpens(config, [c], env);
    X.TableRight(s, c);
    CancelsOne(s, c, env);
    events, states := Extended(config, [c], env, [], [s], X.CancelArrives(env));
    DThenLate(s, states[1], c, env);
    events, states := Responds(config, [c], env, events, states, Reply(c, 180));
  }

  lemma AllowedOne(c: Tx, env: S.Env)
    requires Smooth(env, [c])
    ensures S.Sorts(env.sort) && R.Distinct([c]) && env.lost(c) == {} && env.sends(c) == Sent && env.relayOk
  {
    assert c in [c];
  }

  lemma DThenLate(s: S.Core, s1: S.Core, c: Tx, env: S.Env)
    requires T.Sound(S.At(s, c)) && JustSent(S.At(s, c), c, true) && env.lost(c) == {}
    requires s1.vec == [c] && c in s1.clients && s1.live && !s1.searching
    requires S.At(s1, c) == CancelRequest(S.At(s, c), env.cancelOk(c), S.Queues(s, c, env)).0
    ensures var u := S.ProcessResponse(s1, Reply(c, 180), [], env);
      c in u.clients && S.At(u, c).state == Proceeding && S.At(u, c).Queued(D) == 1
  {
    T.SoundInv(S.At(s, c));
    LateForD(S.At(s, c), Reply(c, 180), env.cancelOk(c), S.Queues(s, c, env), S.Queues(s1, c, env));
    hide CancelRequest, SetState, S.ProcessResponse, LateForCanceled, T.Inv;
    assert S.Find(s1.vec, s1, Reply(c, 180)) == Some(c);
    TakenLate(s1, c, env);
  }

  /** A request other than INVITE fails, a late 100 comes: timer K is queued for a branch that is
      proceeding. */
  lemma FailsThenLate(t: Client, bad: Response, late: Response, q: Adds, q2: Adds)
    requires T.Inv(t) && t.state == Trying && t.Queued(K) == 0 && q.lost == {}
    requires bad.status >= 300 && late.status == 100
    ensures var u := Settle(TakeStatus(t, bad, q), bad);
      && u.state == Completed && u.Queued(K) == 1 && u.branch == t.branch && u.transmitCount == t.transmitCount
      && u.sipMethod == Other && u.status == bad.status && u.final == Some(bad)
      && var v := Settle(TakeStatus(u, late, q2), late);
         v.state == Proceeding && v.Queued(K) == 1 && v.late
  {
    FailsFirst(t, bad, q);
    hide T.Inv, TakeStatus, Settle;
    LateAgain(Settle(TakeStatus(t, bad, q), bad), late, q2);
  }

  lemma FailsFirst(t: Client, bad: Response, q: Adds)
    requires T.Inv(t) && t.state == Trying && t.Queued(K) == 0 && q.lost == {} && bad.status >= 300
    ensures var u := Settle(TakeStatus(t, bad, q), bad);
      && u.state == Completed && u.timerK == Handle(true, 1, false) && u.sipMethod == Other
      && u.branch == t.branch && u.transmitCount == t.transmitCount && u.status == bad.status && u.final == Some(bad)
  {
  }

  lemma LateAgain(u: Client, late: Response, q: Adds)
    requires u.state == Completed && u.timerK == Handle(true, 1, false) && u.sipMethod == Other && late.status == 100
    ensures var v := Settle(TakeStatus(u, late, q), late);
      v.state == Proceeding && v.Queued(K) == 1 && v.late
  {
  }

  lemma FailsAlone(s: S.Core, c: Tx, env: S.Env)
    requires s.vec == [c] && c in s.clients && s.searching && s.live && S.Sorts(env.sort)
    requires S.Find(s.vec, s, Reply(c, 404)) == Some(c) && S.At(s, c).state == Trying && !s.config.redirects
    requires S.At(s, c).sipMethod == Other
    requires Settle(TakeStatus(S.At(s, c), Reply(c, 404), S.Queues(s, c, env)), Reply(c, 404)).state == Completed
    ensures var u := S.ProcessResponse(s, Reply(c, 404), [], env);
      && u.vec == [c] && c in u.clients && u.live && !u.searching
      && S.At(u, c) == Settle(TakeStatus(S.At(s, c), Reply(c, 404), S.Queues(s, c, env)), Reply(c, 404))
  {
    hide TakeStatus, Settle, S.Find, S.Sorts, S.Sorted, S.SendBest;
    var s1 := S.ClientResponse(s, c, Reply(c, 404), [], env);
    AllRemain(s1.vec, s1);
    assert S.RemoveTerminated(s1, false) == s1;
    assert S.StartFrom(s1, 1, env) == (s1, 0);
    assert S.StartRequests(s1, env) == (s1, 0);
    assert S.Exhausted(s1);
    R.SortedFacts(s1, env);
    var v := S.Sorted(s1, env);
    assert v.vec == [c] by { assert v.vec[0] in s1.vec; }
    R.SendBestFrame(v, env.relayOk);
  }

  lemma ProvisionalAlone(s: S.Core, c: Tx, env: S.Env)
    requires s.vec == [c] && c in s.clients && !s.searching && s.live
    requires S.Find(s.vec, s, Reply(c, 100)) == Some(c)
    requires S.At(s, c).state == Completed && S.At(s, c).sipMethod == Other
    requires Settle(TakeStatus(S.At(s, c), Reply(c, 100), S.Queues(s, c, env)), Reply(c, 100)).state == Proceeding
    ensures var u := S.ProcessResponse(s, Reply(c, 100), [], env);
      c in u.clients && S.At(u, c) == Settle(TakeStatus(S.At(s, c), Reply(c, 100), S.Queues(s, c, env)), Reply(c, 100))
  {
    hide TakeStatus, Settle, S.Find;
    var s1 := S.ClientResponse(s, c, Reply(c, 100), [], env);
    AllRemain(s1.vec, s1);
  }

  lemma TimerKFindsProceeding(config: S.Config, c: Tx) returns (events: seq<X.Event>, states: seq<S.Core>)
    requires !config.invite && !config.redirects
    ensures Run(config, [c], SMOOTH, events, states) && |events| == 2 && |states| == 3
    ensures X.Enabled(states[2], X.TimerFires(c, K, SMOOTH)) && S.At(states[2], c).state == Proceeding
  {
    var env := SMOOTH;
    SmoothHolds([c]);
    AllowedOne(c, env);
    BeginsOne(config, c, env);
    var s := RunOpens(config, [c], env);
    hide Run, S.Begin, S.NewCore, S.ProcessResponse, R.Inv, R.Distinct, Smooth, S.Sorts, T.Inv, T.Sound;
    X.TableRight(s, c);
    KStates(s, c, env);
    events, states := Responds(config, [c], env, [], [s], Reply(c, 404));
    events, states := Responds(config, [c], env, events, states, Reply(c, 100));
  }

  lemma KStates(s: S.Core, c: Tx, env: S.Env)
    requires T.Sound(S.At(s, c)) && JustSent(S.At(s, c), c, false) && env.lost(c) == {} && S.Sorts(env.sort)
    requires s.vec == [c] && c in s.clients && s.live && s.searching && !s.config.redirects
    ensures var u := S.ProcessResponse(s, Reply(c, 404), [], env);
      && u.live && var v := S.ProcessResponse(u, Reply(c, 100), [], env);
         c in v.clients && S.At(v, c).state == Proceeding && S.At(v, c).Queued(K) == 1
  {
    var u := S.ProcessResponse(s, Reply(c, 404), [], env);
    T.SoundInv(S.At(s, c));
    FailsThenLate(S.At(s, c), Reply(c, 404), Reply(c, 100), S.Queues(s, c, env), S.Queues(u, c, env));
    hide TakeStatus, Settle, S.ProcessResponse, S.Sorts, T.Inv;
    assert S.Find(s.vec, s, Reply(c, 404)) == Some(c);
    FailsAlone(s, c, env);
    assert S.Find(u.vec, u, Reply(c, 100)) == Some(c);
    ProvisionalAlone(u, c, env);
  }

  // ---------- a retransmission that fails ----------

  lemma Strays(t: Client, q: Adds, ok: bool)
    requires t.state == Calling && t.sipMethod == Invite && t.Queued(A) == 1 && q.lost == {}
    ensures var u := OnTimer(t, A, q, Failed, ok); u.state == Terminated && u.Queued(A) == 1
  {
  }

  /** The first retransmission fails in the send: timer A is queued for a branch that has terminated. */
  lemma TimerAFindsTerminated(config: S.Config, c: Tx) returns (events: seq<X.Event>, states: seq<S.Core>)
    requires config.invite
    ensures Run(config, [c], SMOOTH, events, states) && |events| == 1 && |states| == 2
    ensures X.Enabled(states[1], X.TimerFires(c, A, SMOOTH)) && S.At(states[1], c).state == Terminated
  {
    var env := SMOOTH.(sends := c => Failed);
    SmoothHolds([c]);
    BeginsOne(config, c, SMOOTH);
    AllowedOne(c, SMOOTH);
    var s := RunOpens(config, [c], SMOOTH);
    X.TableRight(s, c);
    hide Run, S.Begin, S.NewCore, R.Inv, R.Distinct, Smooth, S.Sorts, T.Inv, T.Sound, OnTimer;
    Strays(S.At(s, c), S.Queues(s, c, env), env.cancelOk(c));
    events, states := Extended(config, [c], SMOOTH, [], [s], X.TimerFires(c, A, env));
  }
}
