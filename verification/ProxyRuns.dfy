/** What every step of a proxy keeps (src/sip-proxy-controller.cpp). */
module ProxyRuns {
  import opened Wrappers
  import opened ProxyTransactions
  import opened ProxySpec
  import T = ProxyTimers

  type Clients = map<ClientTransaction, Client>

  predicate Distinct(v: seq<ClientTransaction>) { forall i, j :: 0 <= i < j < |v| ==> v[i] != v[j] }

  predicate InTable(v: seq<ClientTransaction>, clients: Clients) { forall c :: c in v ==> c in clients }

  predicate TimersRight(clients: Clients) { forall c :: c in clients ==> T.Sound(clients[c]) }

  /** Each transaction that was ever transmitted was launched once, and only those. */
  ghost predicate LaunchedOnce(launches: seq<ClientTransaction>, clients: Clients) {
    && Distinct(launches)
    && (forall c :: c in launches ==> c in clients && clients[c].transmitCount > 0)
    && (forall c :: c in clients && clients[c].transmitCount > 0 ==> c in launches)
  }

  predicate Success(r: Client) { r.state == Completed && 200 <= r.status <= 299 }

  /** While the search is on, no branch has had a 2xx. */
  predicate Clean(s: Core) { s.searching ==> forall c :: c in s.vec ==> !Success(At(s, c)) }

  ghost predicate Base(s: Core) {
    && Distinct(s.vec) && InTable(s.vec, s.clients) && TimersRight(s.clients) && LaunchedOnce(s.launches, s.clients)
  }

  ghost predicate Inv(s: Core) { Base(s) && Clean(s) }

  /** Launches only happen while the search is on, and a search that has ended stays so. */
  predicate OneWay(s: Core, r: Core) {
    && s.launches <= r.launches
    && (!s.searching ==> !r.searching && r.launches == s.launches)
  }

  // ---------- single transactions ----------

  lemma PutKeeps(s: Core, c: ClientTransaction, r: Client)
    requires Base(s) && c in s.clients && T.Sound(r) && (r.transmitCount > 0 <==> At(s, c).transmitCount > 0)
    ensures Base(Put(s, c, r))
  {
    hide T.Sound;
  }

  lemma SoundFact(s: Core, c: ClientTransaction)
    requires Base(s) && c in s.clients
    ensures T.Sound(At(s, c))
  {
  }

  lemma PutClean(s: Core, c: ClientTransaction, r: Client)
    requires Clean(s) && (c in s.clients && Success(r) ==> Success(At(s, c)))
    requires c in s.clients
    ensures Clean(Put(s, c, r))
  {
    hide Success;
    forall d | d in s.vec && s.searching
      ensures !Success(At(Put(s, c, r), d))
    {
      assert !Success(At(s, d));
    }
  }

  lemma CancelOneKeeps(s: Core, c: ClientTransaction, env: Env)
    requires Base(s) && c in s.clients
    ensures Base(CancelOne(s, c, env))
  {
    hide T.Sound, CancelRequest;
    T.SoundCancel(At(s, c), env.cancelOk(c), Queues(s, c, env));
    var r := CancelRequest(At(s, c), env.cancelOk(c), Queues(s, c, env)).0;
    CancelFacts(At(s, c), env.cancelOk(c), Queues(s, c, env));
    PutKeeps(s, c, r);
  }

  /** What a change of state does besides the timers. */
  predicate Entered(c: Client, s: TransactionState, r: Client) {
    r.state == s && r.transmitCount == c.transmitCount && r.status == c.status && r.canceled == c.canceled
  }

  lemma Enters(c: Client, s: TransactionState, q: Adds)
    ensures Entered(c, s, SetState(c, s, q))
  {
  }

  /** A cancelled transaction is neither calling nor waiting to be launched; one that was proceeding
      still is, and the CANCEL went out if it could be sent. */
  lemma CancelFacts(t: Client, ok: bool, q: Adds)
    requires T.Sound(t)
    ensures
      var (r, sent) := CancelRequest(t, ok, q);
      && r.transmitCount == t.transmitCount && (Success(r) ==> Success(t))
      && r.state == (if t.state == Calling then Completed else if t.state == NotStarted then Terminated else t.state)
      && (sent <==> t.state == Proceeding && ok)
      && (sent ==> r.canceled)
  {
    hide SetState;
    var c := t.(timerA := Stop(t.timerA), timerB := Stop(t.timerB), timerC := Stop(t.timerC));
    if t.state == Calling {
      Enters(c, Completed, q);
    } else if t.state == NotStarted {
      Enters(c, Terminated, q);
    }
  }

  // ---------- launching ----------

  lemma RecordLaunch(s: Core, c: ClientTransaction, f: Client)
    requires Base(s) && c in s.clients && At(s, c).transmitCount == 0 && T.Sound(f) && f.transmitCount == 1
    ensures c !in s.launches && Base(Put(s, c, f).(launches := s.launches + [c]))
  {
    hide T.Sound;
    assert c !in s.launches;
  }

  lemma LaunchKeeps(s: Core, c: ClientTransaction, env: Env)
    requires Base(s) && c in s.clients && At(s, c).state == NotStarted
    ensures var r := Launch(s, c, env).0;
      && Base(r) && (Clean(s) ==> Clean(r))
      && c !in s.launches && r == s.(clients := r.clients, launches := s.launches + [c])
      && s.clients.Keys <= r.clients.Keys
  {
    hide T.Sound, T.Inv, ForwardRequest, Base;
    var f := ForwardRequest(At(s, c), s.config.invite, Queues(s, c, env), env.sends(c)).0;
    SoundFact(s, c);
    T.SoundInv(At(s, c));
    T.ForwardKeeps(At(s, c), s.config.invite, Queues(s, c, env), env.sends(c));
    T.InvSound(f);
    LaunchFacts(At(s, c), s.config.invite, Queues(s, c, env), env.sends(c));
    RecordLaunch(s, c, f);
    if Clean(s) {
      PutClean(s, c, f);
    }
  }

  lemma LaunchFacts(t: Client, invite: bool, q: Adds, send: Send)
    requires T.Inv(t) && t.state == NotStarted
    ensures
      var r := ForwardRequest(t, invite, q, send).0;
      t.transmitCount == 0 && r.transmitCount == 1 && r.state != NotStarted && !Success(r)
  {
    NotSent(t);
    Transmitted(t, invite, q);
    hide T.Inv, Transmit, SetState;
    Enters(Transmit(t, invite, q), Terminated, q);
  }

  lemma Transmitted(t: Client, invite: bool, q: Adds)
    requires t.state == NotStarted
    ensures var r := Transmit(t, invite, q);
      r.transmitCount == t.transmitCount + 1 && r.status == t.status && r.state == if invite then Calling else Trying
  {
    hide SetState;
    var c := t.(transmitCount := t.transmitCount + 1);
    if invite {
      Enters(c.(sipMethod := Invite), Calling, q);
    } else {
      Enters(c.(sipMethod := Other), Trying, q);
    }
  }

  lemma NotSent(t: Client)
    requires T.Inv(t) && t.state == NotStarted
    ensures t.transmitCount == 0 && t.status == 0
  {
  }

  lemma {:induction false} StartFromKeeps(s: Core, i: nat, env: Env)
    requires Base(s) && s.searching
    ensures var r := StartFrom(s, i, env).0;
      Base(r) && (Clean(s) ==> Clean(r)) && OneWay(s, r)
      && r == s.(clients := r.clients, launches := r.launches) && s.clients.Keys <= r.clients.Keys
    decreases |s.vec| - i
  {
    hide Base, Clean, Launch;
    if i < |s.vec| {
      TableFact(s, i);
      if At(s, s.vec[i]).state != NotStarted {
        StartFromKeeps(s, i + 1, env);
      } else {
        LaunchKeeps(s, s.vec[i], env);
        var (s1, ok) := Launch(s, s.vec[i], env);
        if !(ok && s.config.serial) {
          StartFromKeeps(s1, i + 1, env);
        }
      }
    }
  }

  lemma DistinctFact(s: Core)
    requires Base(s)
    ensures Distinct(s.vec)
  {
  }

  lemma TableFact(s: Core, i: nat)
    requires Base(s) && i < |s.vec|
    ensures s.vec[i] in s.clients
  {
  }

  lemma StartKeeps(s: Core, env: Env)
    requires Inv(s)
    ensures Inv(StartRequests(s, env).0) && OneWay(s, StartRequests(s, env).0)
  {
    hide Base, Clean;
    if s.searching {
      StartFromKeeps(s, 0, env);
    }
  }

  // ---------- cancelling ----------

  ghost predicate OnlyCanceled(s: Core, r: Core) {
    r == s.(clients := r.clients, cancels := r.cancels) && r.clients.Keys == s.clients.Keys
  }

  /** The branches in `todo` are cancelled, the others are as they were. */
  ghost predicate StatesCanceled(s: Core, todo: seq<ClientTransaction>, env: Env, r: Core) {
    forall c :: c in s.clients ==>
      At(r, c) == if c in todo then CancelRequest(At(s, c), env.cancelOk(c), Queues(s, c, env)).0 else At(s, c)
  }

  ghost predicate CancelsRecorded(s: Core, todo: seq<ClientTransaction>, env: Env, r: Core) {
    && s.cancels <= r.cancels
    && (forall c :: c in todo && CancelRequest(At(s, c), env.cancelOk(c), Queues(s, c, env)).1 ==> c in r.cancels)
    && (forall c :: c in r.cancels ==>
          c in s.cancels || (c in todo && CancelRequest(At(s, c), env.cancelOk(c), Queues(s, c, env)).1))
  }

  ghost predicate CanceledFrom(s: Core, todo: seq<ClientTransaction>, env: Env, r: Core) {
    OnlyCanceled(s, r) && StatesCanceled(s, todo, env, r) && CancelsRecorded(s, todo, env, r)
  }

  lemma {:induction false} CancelFromEffect(s: Core, i: nat, env: Env)
    requires Distinct(s.vec) && InTable(s.vec, s.clients) && i <= |s.vec|
    ensures CanceledFrom(s, s.vec[i..], env, CancelFrom(s, i, env))
    decreases |s.vec| - i
  {
    hide CancelRequest, CanceledFrom, CancelOne;
    if i == |s.vec| {
      NoneCanceled(s, env);
    } else {
      CancelOneVec(s, s.vec[i], env);
      CancelFromEffect(CancelOne(s, s.vec[i], env), i + 1, env);
      assert s.vec[i..] == [s.vec[i]] + s.vec[i + 1..];
      CanceledStep(s, s.vec[i], s.vec[i + 1..], env, CancelFrom(s, i, env));
    }
  }

  lemma NoneCanceled(s: Core, env: Env)
    ensures CanceledFrom(s, s.vec[|s.vec|..], env, s)
  {
  }

  lemma CanceledStep(s: Core, c: ClientTransaction, todo: seq<ClientTransaction>, env: Env, r: Core)
    requires c in s.clients && c !in todo && CanceledFrom(CancelOne(s, c, env), todo, env, r)
    ensures CanceledFrom(s, [c] + todo, env, r)
  {
    hide CancelRequest, StatesCanceled, CancelsRecorded, OnlyCanceled;
    assert OnlyCanceled(s, r) by { FrameStep(s, c, env, r); }
    assert StatesCanceled(s, [c] + todo, env, r) by { StatesStep(s, c, todo, env, r); }
    assert CancelsRecorded(s, [c] + todo, env, r) by { RecordStep(s, c, todo, env, r); }
  }

  lemma FrameStep(s: Core, c: ClientTransaction, env: Env, r: Core)
    requires c in s.clients && OnlyCanceled(CancelOne(s, c, env), r)
    ensures OnlyCanceled(s, r)
  {
    hide CancelRequest;
    assert CancelOne(s, c, env).clients.Keys == s.clients.Keys;
  }

  lemma OtherUnchanged(s: Core, c: ClientTransaction, env: Env, d: ClientTransaction)
    ensures d != c ==> At(CancelOne(s, c, env), d) == At(s, d)
    ensures At(CancelOne(s, c, env), c) == CancelRequest(At(s, c), env.cancelOk(c), Queues(s, c, env)).0
  {
    hide CancelRequest;
  }

  lemma StatesStep(s: Core, c: ClientTransaction, todo: seq<ClientTransaction>, env: Env, r: Core)
    requires c in s.clients && c !in todo && StatesCanceled(CancelOne(s, c, env), todo, env, r)
    ensures StatesCanceled(s, [c] + todo, env, r)
  {
    var s1 := CancelOne(s, c, env);
    assert forall d :: d in s.clients ==> d in s1.clients;
    forall d | d in s.clients
      ensures At(r, d) ==
        if d in [c] + todo then CancelRequest(At(s, d), env.cancelOk(d), Queues(s, d, env)).0 else At(s, d)
    {
      OtherUnchanged(s, c, env, d);
      hide CancelRequest, CancelOne, At;
    }
  }

  lemma RecordStep(s: Core, c: ClientTransaction, todo: seq<ClientTransaction>, env: Env, r: Core)
    requires c in s.clients && c !in todo && CancelsRecorded(CancelOne(s, c, env), todo, env, r)
    ensures CancelsRecorded(s, [c] + todo, env, r)
  {
    var s1 := CancelOne(s, c, env);
    hide CancelRequest, At;
    forall d | d in todo
      ensures At(s1, d) == At(s, d)
    {
      OtherUnchanged(s, c, env, d);
    }
    assert s1.cancels == r.cancels[..|s1.cancels|];
    assert s.cancels <= s1.cancels;
    assert forall d :: d in s1.cancels ==> d in r.cancels;
  }

  lemma {:induction false} CancelFromKeeps(s: Core, i: nat, env: Env)
    requires Base(s)
    ensures Base(CancelFrom(s, i, env))
    decreases |s.vec| - i
  {
    hide Base, CancelOne;
    if i < |s.vec| {
      TableFact(s, i);
      CancelOneKeeps(s, s.vec[i], env);
      assert CancelOne(s, s.vec[i], env).vec == s.vec by { CancelOneVec(s, s.vec[i], env); }
      CancelFromKeeps(CancelOne(s, s.vec[i], env), i + 1, env);
    }
  }

  lemma CancelOneVec(s: Core, c: ClientTransaction, env: Env)
    ensures var r := CancelOne(s, c, env);
      r.vec == s.vec && (InTable(s.vec, s.clients) ==> InTable(r.vec, r.clients))
  {
  }

  lemma CancelKeeps(s: Core, env: Env)
    requires Base(s)
    ensures var r := CancelOutstanding(s, env);
      Inv(r) && !r.searching && r.vec == s.vec && r.launches == s.launches
      && CanceledFrom(s.(searching := false), s.vec, env, r)
  {
    hide T.Sound, CancelRequest, LaunchedOnce, TimersRight;
    var s1 := s.(searching := false);
    CancelFromKeeps(s1, 0, env);
    CancelFromEffect(s1, 0, env);
    assert s.vec[0..] == s.vec;
  }

  // ---------- the vector ----------

  lemma {:induction false} RemainingFacts(v: seq<ClientTransaction>, s: Core, also: bool)
    requires Distinct(v)
    ensures var w := Remaining(v, s, also);
      && Distinct(w)
      && (forall c :: c in w ==> c in v && !Gone(At(s, c), also))
      && (forall c :: c in v && !Gone(At(s, c), also) ==> c in w)
  {
    hide Gone;
    if v != [] {
      assert v == [v[0]] + v[1..];
      assert forall i, j :: 0 <= i < j < |v[1..]| ==> v[1..][i] == v[i + 1] && v[1..][j] == v[j + 1];
      RemainingFacts(v[1..], s, also);
      assert v[0] !in v[1..];
    }
  }

  /** A vector of some of the same transactions does as well. */
  lemma Reindexed(s: Core, r: Core)
    requires Base(s) && r.clients == s.clients && r.launches == s.launches
    requires Distinct(r.vec) && forall c :: c in r.vec ==> c in s.vec
    ensures Base(r)
  {
    hide TimersRight, LaunchedOnce;
  }

  lemma RemoveKeeps(s: Core, also: bool)
    requires Base(s)
    ensures var r := RemoveTerminated(s, also);
      Base(r) && (Clean(s) ==> Clean(r)) && OneWay(s, r) && r == s.(vec := r.vec, live := r.live)
  {
    RemainingFacts(s.vec, s, also);
    var r := RemoveTerminated(s, also);
    assert r.vec == Remaining(s.vec, s, also);
    hide TimersRight, LaunchedOnce, Success;
    Reindexed(s, r);
  }

  // ---------- the best response ----------

  lemma ReorderFacts(v: seq<ClientTransaction>, p: seq<nat>)
    requires Distinct(v) && Permutes(p, |v|)
    ensures Distinct(Reorder(v, p))
    ensures (forall c :: c in v ==> c in Reorder(v, p)) && (forall c :: c in Reorder(v, p) ==> c in v)
  {
    var w := Reorder(v, p);
    forall c | c in v
      ensures c in w
    {
      var k :| 0 <= k < |v| && v[k] == c;
      assert k in p;
      var i :| 0 <= i < |p| && p[i] == k;
      assert w[i] == c;
    }
  }

  lemma SendBestFrame(s: Core, relayOk: bool)
    ensures var r := SendBest(s, relayOk); r == s.(upstream := r.upstream)
  {
  }

  lemma SortFacts(sort: seq<nat> -> seq<nat>, ks: seq<nat>)
    requires Sorts(sort)
    ensures Permutes(sort(ks), |ks|)
    ensures forall i, j :: 0 <= i < j < |ks| ==> ks[sort(ks)[i]] >= ks[sort(ks)[j]]
  {
  }

  /** The sort reorders the vector and changes nothing else. */
  lemma SortedFacts(s: Core, env: Env)
    requires Distinct(s.vec) && Sorts(env.sort)
    ensures var r := Sorted(s, env);
      && r == s.(searching := false, vec := r.vec) && Distinct(r.vec) && |r.vec| == |s.vec|
      && (forall c :: c in s.vec ==> c in r.vec) && (forall c :: c in r.vec ==> c in s.vec)
  {
    var ks := Ranks(s.vec, s);
    SortFacts(env.sort, ks);
    hide Sorts;
    ReorderFacts(s.vec, env.sort(ks));
  }

  lemma ForwardBestKeeps(s: Core, env: Env)
    requires Base(s) && Sorts(env.sort)
    ensures var r := ForwardBest(s, env); Inv(r) && !r.searching && OneWay(s, r)
  {
    DistinctFact(s);
    hide Sorts, SendBest, Sorted, Base;
    SortedFacts(s, env);
    SendBestFrame(Sorted(s, env), env.relayOk);
    Reindexed(s, ForwardBest(s, env));
  }

  lemma BestIfExhaustedKeeps(s: Core, env: Env)
    requires Inv(s) && Sorts(env.sort)
    ensures var r := BestIfExhausted(s, env); Inv(r) && OneWay(s, r)
  {
    hide Base, Clean, ForwardBest;
    if s.searching && Exhausted(s) {
      ForwardBestKeeps(s, env);
    }
  }

  // ---------- responses ----------

  lemma NotifyKeeps(s: Core, env: Env)
    requires Base(s)
    ensures var r := NotifyForwarded200OK(s, env);
      Inv(r) && !r.searching && r.launches == s.launches && r.clients == CancelOutstanding(s, env).clients
      && StatesCanceled(s.(searching := false), s.vec, env, CancelOutstanding(s, env))
      && r.clients.Keys == s.clients.Keys
  {
    CancelKeeps(s, env);
    RemoveKeeps(CancelOutstanding(s, env), true);
    hide Base, Clean, StatesCanceled, CancelsRecorded, CancelOutstanding;
  }

  /** Taking the status of a 2xx keeps the timers right by itself, and what follows does too. */
  lemma SuccessSettles(t: Client, r: Response, ok: bool, q: Adds)
    requires T.Inv(t) && t.transmitCount > 0 && t.state != Terminated && t.state != Completed && 200 <= r.status <= 299
    ensures
      var t1 := TakeStatus(t, r, q);
      && T.Inv(t1) && t1.transmitCount == t.transmitCount
      && T.Inv(Settle(t1, r)) && Settle(t1, r).transmitCount == t.transmitCount
      && CancelRequest(t1, ok, q).0 == t1
  {
    T.SuccessKeeps(t, r, q);
    StatusSettles(t, r, q);
    hide T.Inv, TakeStatus;
    NothingToCancel(TakeStatus(t, r, q), ok, q);
  }

  lemma StatusSettles(t: Client, r: Response, q: Adds)
    requires T.Inv(t) && t.transmitCount > 0 && t.state != Terminated && t.state != Completed && 200 <= r.status <= 299
    ensures
      var t1 := TakeStatus(t, r, q);
      && T.Inv(t1) && t1.transmitCount == t.transmitCount && (t1.state == Terminated || t1.state == Completed)
  {
    if t.sipMethod == Invite {
      assert TakeStatus(t, r, q).state == Terminated;
    } else {
      assert TakeStatus(t, r, q).state == Completed;
    }
  }

  lemma NothingToCancel(t: Client, ok: bool, q: Adds)
    requires T.Inv(t) && (t.state == Terminated || t.state == Completed)
    ensures CancelRequest(t, ok, q).0 == t
  {
  }

  lemma SuccessTaken(s: Core, c: ClientTransaction, r: Response, env: Env)
    requires Base(s) && c in s.clients && 200 <= r.status <= 299
    requires At(s, c).transmitCount > 0 && At(s, c).state != Terminated && At(s, c).state != Completed
    ensures
      var s2 := NotifyForwarded200OK(Put(s, c, TakeStatus(At(s, c), r, Queues(s, c, env))), env);
      var s3 := Put(s2, c, Settle(At(s2, c), r));
      Inv(s3) && !s3.searching && s3.launches == s.launches && s3.clients.Keys == s.clients.Keys
  {
    hide TakeStatus, Settle, T.Inv, T.Sound, CancelRequest, NotifyForwarded200OK, Clean;
    var t1 := TakeStatus(At(s, c), r, Queues(s, c, env));
    SoundFact(s, c);
    T.SoundInv(At(s, c));
    SuccessSettles(At(s, c), r, env.cancelOk(c), Queues(s, c, env));
    T.InvSound(t1);
    T.InvSound(Settle(t1, r));
    PutKeeps(s, c, t1);
    var s1 := Put(s, c, t1);
    NotifyKeeps(s1, env);
    var s2 := NotifyForwarded200OK(s1, env);
    assert At(s2, c) == t1;
    PutKeeps(s2, c, Settle(t1, r));
    StoppedIsClean(Put(s2, c, Settle(t1, r)));
  }

  lemma StoppedIsClean(s: Core)
    requires !s.searching
    ensures Clean(s)
  {
  }

  lemma OtherTaken(s: Core, c: ClientTransaction, r: Response, env: Env)
    requires Inv(s) && c in s.clients && (r.status <= 199 || r.status >= 300)
    requires At(s, c).transmitCount > 0 && At(s, c).state != Terminated
    requires At(s, c).state == Completed ==> r.status <= 199
    ensures
      var s3 := Put(s, c, Settle(TakeStatus(At(s, c), r, Queues(s, c, env)), r));
      Inv(s3) && s3.clients.Keys == s.clients.Keys
  {
    hide TakeStatus, Settle, T.Inv, T.Sound, Base, Clean;
    var t := Settle(TakeStatus(At(s, c), r, Queues(s, c, env)), r);
    SoundFact(s, c);
    T.SoundInv(At(s, c));
    T.TakeStatusKeeps(At(s, c), r, Queues(s, c, env));
    T.InvSound(t);
    OtherFacts(At(s, c), r, Queues(s, c, env));
    PutKeeps(s, c, t);
    PutClean(s, c, t);
  }

  lemma OtherFacts(t: Client, r: Response, q: Adds)
    requires r.status <= 199 || r.status >= 300
    ensures
      var t1 := Settle(TakeStatus(t, r, q), r);
      t1.transmitCount == t.transmitCount && !Success(t1)
  {
    var t1 := TakeStatus(t, r, q);
    assert t1.status == r.status && t1.transmitCount == t.transmitCount;
    hide TakeStatus;
  }

  predicate Fresh(added: seq<ClientTransaction>, clients: Clients) {
    Distinct(added) && forall c :: c in added ==> c !in clients
  }

  lemma {:induction false} NewClientsKeep(s: Core, added: seq<ClientTransaction>)
    requires TimersRight(s.clients) && LaunchedOnce(s.launches, s.clients) && Fresh(added, s.clients)
    ensures var r := NewClients(s, added);
      && TimersRight(r.clients) && LaunchedOnce(r.launches, r.clients)
      && r == s.(clients := r.clients) && s.clients.Keys <= r.clients.Keys
      && (forall c :: c in s.clients ==> At(r, c) == At(s, c))
      && (forall c :: c in added ==> c in r.clients && At(r, c).state == NotStarted)
    decreases |added|
  {
    hide T.Inv, T.Sound;
    if added != [] {
      var c := added[0];
      var t := NewClient(c.branch, c.target, c.initialRSeq);
      T.NewClientInv(c.branch, c.target, c.initialRSeq);
      T.InvSound(t);
      assert added == [c] + added[1..];
      assert c !in added[1..];
      assert forall i, j :: 0 <= i < j < |added[1..]| ==>
        added[1..][i] == added[i + 1] && added[1..][j] == added[j + 1];
      NewClientsKeep(Put(s, c, t), added[1..]);
    }
  }

  lemma InsertedDistinct(v: seq<ClientTransaction>, added: seq<ClientTransaction>, k: nat)
    requires k <= |v| && Distinct(v) && Distinct(added) && forall c :: c in added ==> c !in v
    ensures Distinct(v[..k] + added + v[k..])
  {
    var w := v[..k] + added + v[k..];
    forall i, j | 0 <= i < j < |w|
      ensures w[i] != w[j]
    {
      assert i >= k + |added| ==> w[i] in v;
      assert j < k ==> w[j] in v;
      assert k <= i < k + |added| ==> w[i] in added;
      assert k <= j < k + |added| ==> w[j] in added;
    }
  }

  lemma AddKeeps(s: Core, c: ClientTransaction, added: seq<ClientTransaction>)
    requires Inv(s) && Fresh(added, s.clients)
    ensures var r := AddClientTransactions(s, c, added);
      Inv(r) && r == s.(vec := r.vec, clients := r.clients) && s.clients.Keys <= r.clients.Keys
  {
    hide T.Sound, LaunchedOnce, TimersRight, NewClients, Position;
    var k := Position(s.vec, c.target);
    var k1 := if k < |s.vec| then k + 1 else |s.vec|;
    var v := s.vec[..k1] + added + s.vec[k1..];
    InsertedDistinct(s.vec, added, k1);
    NewClientsKeep(s.(vec := v), added);
    var r := AddClientTransactions(s, c, added);
    assert forall d :: d in v ==> d in s.vec || d in added;
  }
}
