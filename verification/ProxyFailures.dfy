/** The timers of one branch, whatever happens to the others: only a retransmission of its own that fails
    in the send puts them wrong (src/sip-proxy-controller.cpp). */
module ProxyFailures {
  import opened Wrappers
  import opened ProxyTransactions
  import S = ProxySpec
  import T = ProxyTimers
  import R = ProxyRuns
  import X = ProxyTheorems

  type Tx = ClientTransaction

  // ---------- one branch ----------

  lemma SetStateKeeps(t: Client, s: TransactionState, q: Adds)
    ensures SetState(t, s, q).failed == t.failed
  {
  }

  lemma ForwardKeeps(t: Client, invite: bool, q: Adds, send: Send)
    ensures ForwardRequest(t, invite, q, send).0.failed == t.failed
  {
    hide SetState;
    var t1 := t.(transmitCount := t.transmitCount + 1);
    SetStateKeeps(t1.(sipMethod := Invite), Calling, q);
    SetStateKeeps(t1.(sipMethod := Other), Trying, q);
    SetStateKeeps(Transmit(t, invite, q), Terminated, q);
  }

  lemma CancelKeeps(t: Client, ok: bool, q: Adds)
    ensures CancelRequest(t, ok, q).0.failed == t.failed
  {
    hide SetState;
    var t1 := t.(timerA := Stop(t.timerA), timerB := Stop(t.timerB), timerC := Stop(t.timerC));
    SetStateKeeps(t1, Completed, q);
    SetStateKeeps(t1, Terminated, q);
  }

  lemma TakeKeeps(t: Client, r: Response, q: Adds)
    ensures TakeStatus(t, r, q).failed == t.failed && Settle(t, r).failed == t.failed
  {
    hide SetState;
    var t1 := t.(status := r.status);
    SetStateKeeps(t1, Proceeding, q);
    SetStateKeeps(t1, Terminated, q);
    SetStateKeeps(t1, Completed, q);
  }

  lemma TimerKeeps(t: Client, timer: Timer, q: Adds, send: Send, ok: bool)
    ensures OnTimer(t, timer, q, send, ok).failed == (t.failed || ((timer == A || timer == E) && send == Failed))
  {
    var t1 := Fired(t, timer);
    var t2 := t1.(durationA := 2 * t1.durationA, failed := t1.failed || send == Failed);
    assert t1.failed == t.failed;
    hide SetState, ForwardRequest, CancelRequest, Fired;
    ForwardKeeps(t2, t1.sipMethod == Invite, q, send);
    CancelKeeps(t1, ok, q);
    SetStateKeeps(CancelRequest(t1, ok, q).0, Terminated, q);
    SetStateKeeps(t1, Terminated, q);
    SetStateKeeps(t1, Completed, q);
  }

  // ---------- the proxy ----------

  /** The flags of the transactions there were stay as they are, and every one made since starts without. */
  ghost predicate SameFlags(s: S.Core, u: S.Core) {
    && (forall c :: c in s.clients ==> c in u.clients && S.At(u, c).failed == S.At(s, c).failed)
    && (forall c :: c in u.clients && c !in s.clients ==> !S.At(u, c).failed)
  }

  lemma Chained(s: S.Core, u: S.Core, v: S.Core)
    requires SameFlags(s, u) && SameFlags(u, v)
    ensures SameFlags(s, v)
  {
  }

  lemma PutSame(s: S.Core, c: Tx, r: Client)
    requires c in s.clients && r.failed == S.At(s, c).failed
    ensures SameFlags(s, S.Put(s, c, r))
  {
  }

  lemma SameTable(s: S.Core, u: S.Core)
    requires u.clients == s.clients
    ensures SameFlags(s, u)
  {
  }

  lemma LaunchSame(s: S.Core, c: Tx, env: S.Env)
    requires c in s.clients
    ensures SameFlags(s, S.Launch(s, c, env).0)
  {
    ForwardKeeps(S.At(s, c), s.config.invite, S.Queues(s, c, env), env.sends(c));
    hide ForwardRequest;
  }

  lemma {:induction false} StartSame(s: S.Core, i: nat, env: S.Env)
    requires R.InTable(s.vec, s.clients)
    ensures SameFlags(s, S.StartFrom(s, i, env).0)
    decreases |s.vec| - i
  {
    hide S.Launch, SameFlags, S.At;
    SameTable(s, s);
    if i < |s.vec| {
      if S.At(s, s.vec[i]).state != NotStarted {
        StartSame(s, i + 1, env);
      } else {
        LaunchSame(s, s.vec[i], env);
        LaunchTable(s, s.vec[i], env);
        var s1 := S.Launch(s, s.vec[i], env).0;
        StartSame(s1, i + 1, env);
        Chained(s, s1, S.StartFrom(s1, i + 1, env).0);
      }
    }
  }

  lemma LaunchTable(s: S.Core, c: Tx, env: S.Env)
    requires R.InTable(s.vec, s.clients)
    ensures var u := S.Launch(s, c, env).0; u.vec == s.vec && R.InTable(u.vec, u.clients)
  {
  }

  lemma StartRequestsSame(s: S.Core, env: S.Env)
    requires R.InTable(s.vec, s.clients)
    ensures SameFlags(s, S.StartRequests(s, env).0)
  {
    hide SameFlags;
    SameTable(s, s);
    StartSame(s, 0, env);
  }

  lemma CancelOneSame(s: S.Core, c: Tx, env: S.Env)
    requires c in s.clients
    ensures SameFlags(s, S.CancelOne(s, c, env))
  {
    CancelKeeps(S.At(s, c), env.cancelOk(c), S.Queues(s, c, env));
    hide CancelRequest;
  }

  lemma CancelAllSame(s: S.Core, env: S.Env)
    requires R.Distinct(s.vec) && R.InTable(s.vec, s.clients)
    ensures SameFlags(s, S.CancelOutstanding(s, env))
  {
    var s1 := s.(searching := false);
    R.CancelFromEffect(s1, 0, env);
    var u := S.CancelOutstanding(s, env);
    hide CancelRequest, S.CancelOutstanding;
    forall c | c in s.clients
      ensures c in u.clients && S.At(u, c).failed == S.At(s, c).failed
    {
      CancelKeeps(S.At(s1, c), env.cancelOk(c), S.Queues(s1, c, env));
    }
  }

  lemma BestSame(s: S.Core, env: S.Env)
    ensures SameFlags(s, S.ForwardBest(s, env)) && SameFlags(s, S.BestIfExhausted(s, env))
  {
    hide S.Sorted, SameFlags;
    SortedTable(s, env);
    R.SendBestFrame(S.Sorted(s, env), env.relayOk);
    SameTable(s, S.ForwardBest(s, env));
    SameTable(s, s);
  }

  lemma SortedTable(s: S.Core, env: S.Env)
    ensures S.Sorted(s, env).clients == s.clients
  {
  }

  lemma NotifySame(s: S.Core, env: S.Env)
    requires R.Distinct(s.vec) && R.InTable(s.vec, s.clients)
    ensures SameFlags(s, S.NotifyForwarded200OK(s, env))
  {
    hide S.CancelOutstanding, SameFlags;
    CancelAllSame(s, env);
    SameTable(S.CancelOutstanding(s, env), S.NotifyForwarded200OK(s, env));
    Chained(s, S.CancelOutstanding(s, env), S.NotifyForwarded200OK(s, env));
  }

  lemma {:induction false} NewSame(s: S.Core, added: seq<Tx>)
    requires R.Fresh(added, s.clients)
    ensures SameFlags(s, S.NewClients(s, added))
    decreases |added|
  {
    if added != [] {
      var c := added[0];
      assert added == [c] + added[1..] && c !in added[1..];
      var s1 := S.Put(s, c, NewClient(c.branch, c.target, c.initialRSeq));
      NewSame(s1, added[1..]);
      Chained(s, s1, S.NewClients(s1, added[1..]));
    }
  }

  lemma AddSame(s: S.Core, c: Tx, added: seq<Tx>)
    requires R.Fresh(added, s.clients)
    ensures SameFlags(s, S.AddClientTransactions(s, c, added))
  {
    var k := S.Position(s.vec, c.target);
    var k1 := if k < |s.vec| then k + 1 else |s.vec|;
    var s1 := s.(vec := s.vec[..k1] + added + s.vec[k1..]);
    hide SameFlags, S.NewClients, S.Position;
    SameTable(s, s1);
    NewSame(s1, added);
    Chained(s, s1, S.NewClients(s1, added));
  }

  /** The proxy once the branch has settled, before anything is relayed or added. */
  function Settled(s: S.Core, c: Tx, r: Response, env: S.Env): S.Core {
    var s1 := S.Put(s, c, TakeStatus(S.At(s, c), r, S.Queues(s, c, env)));
    var s2 := if 200 <= r.status <= 299 then S.NotifyForwarded200OK(s1, env) else s1;
    S.Put(s2, c, Settle(S.At(s2, c), r))
  }

  lemma Unfold(s: S.Core, c: Tx, r: Response, added: seq<Tx>, env: S.Env)
    ensures var s3 := Settled(s, c, r, env);
      S.TakeOwn(s, c, r, added, env) ==
      if 100 < r.status < 300 then if env.relayOk then S.Answer(s3, S.Relayed(r)) else s3
      else if 300 <= r.status <= 399 && s.config.redirects && r.contacts != [] then
        S.AddClientTransactions(s3, c, added)
      else s3
  {
    hide TakeStatus, Settle, S.NotifyForwarded200OK, S.AddClientTransactions;
  }

  lemma SettledKeys(s: S.Core, c: Tx, r: Response, env: S.Env)
    requires c in s.clients && !(100 < r.status < 300)
    ensures Settled(s, c, r, env).clients.Keys == s.clients.Keys
  {
    hide TakeStatus, Settle, S.NotifyForwarded200OK;
  }

  lemma SettledSame(s: S.Core, c: Tx, r: Response, env: S.Env)
    requires R.Distinct(s.vec) && R.InTable(s.vec, s.clients) && c in s.clients
    ensures SameFlags(s, Settled(s, c, r, env))
  {
    hide SameFlags, TakeStatus, Settle, S.NotifyForwarded200OK;
    var s1 := S.Put(s, c, TakeStatus(S.At(s, c), r, S.Queues(s, c, env)));
    TakeKeeps(S.At(s, c), r, S.Queues(s, c, env));
    PutSame(s, c, TakeStatus(S.At(s, c), r, S.Queues(s, c, env)));
    var s2 := if 200 <= r.status <= 299 then S.NotifyForwarded200OK(s1, env) else s1;
    SameTable(s1, s1);
    NotifySame(s1, env);
    Chained(s, s1, s2);
    Stays(s, s2, c);
    TakeKeeps(S.At(s2, c), r, S.Queues(s2, c, env));
    PutSame(s2, c, Settle(S.At(s2, c), r));
    Chained(s, s2, S.Put(s2, c, Settle(S.At(s2, c), r)));
  }

  lemma TakeOwnSame(s: S.Core, c: Tx, r: Response, added: seq<Tx>, env: S.Env)
    requires R.Distinct(s.vec) && R.InTable(s.vec, s.clients) && c in s.clients && R.Fresh(added, s.clients)
    ensures SameFlags(s, S.TakeOwn(s, c, r, added, env))
  {
    hide SameFlags, TakeStatus, Settle, S.NotifyForwarded200OK, S.AddClientTransactions, R.Fresh, Settled;
    SettledSame(s, c, r, env);
    var s3 := Settled(s, c, r, env);
    assert S.TakeOwn(s, c, r, added, env) ==
      if 100 < r.status < 300 then if env.relayOk then S.Answer(s3, S.Relayed(r)) else s3
      else if 300 <= r.status <= 399 && s.config.redirects && r.contacts != [] then
        S.AddClientTransactions(s3, c, added)
      else s3 by { Unfold(s, c, r, added, env); }
    SameTable(s3, S.Answer(s3, S.Relayed(r)));
    Chained(s, s3, S.Answer(s3, S.Relayed(r)));
    if !(100 < r.status < 300) {
      SettledKeys(s, c, r, env);
      StillFresh(s, s3, added);
      AddSame(s3, c, added);
      Chained(s, s3, S.AddClientTransactions(s3, c, added));
    }
  }

  lemma Stays(s: S.Core, u: S.Core, c: Tx)
    requires SameFlags(s, u) && c in s.clients
    ensures c in u.clients
  {
  }

  lemma StillFresh(s: S.Core, u: S.Core, added: seq<Tx>)
    requires R.Fresh(added, s.clients) && u.clients.Keys == s.clients.Keys
    ensures R.Fresh(added, u.clients)
  {
  }

  lemma ClientResponseSame(s: S.Core, c: Tx, r: Response, added: seq<Tx>, env: S.Env)
    requires R.Distinct(s.vec) && R.InTable(s.vec, s.clients) && c in s.clients && R.Fresh(added, s.clients)
    ensures SameFlags(s, S.ClientResponse(s, c, r, added, env))
  {
    hide SameFlags, S.TakeOwn, S.CancelOne, SetState;
    SameTable(s, s);
    var q := S.Queues(s, c, env);
    var s1 := S.Put(s, c, SetState(S.At(s, c), Proceeding, q));
    SetStateKeeps(S.At(s, c), Proceeding, q);
    PutSame(s, c, SetState(S.At(s, c), Proceeding, q));
    CancelOneSame(s1, c, env);
    Chained(s, s1, S.CancelOne(s1, c, env));
    TakeOwnSame(s, c, r, added, env);
  }

  /** After a response or a timer: branches removed, others started, the best response. */
  lemma GoOnSame(s: S.Core, start: bool, env: S.Env)
    requires R.Inv(s)
    ensures var s2 := S.RemoveTerminated(s, false);
      SameFlags(s, S.BestIfExhausted(if start then S.StartRequests(s2, env).0 else s2, env))
  {
    hide SameFlags, S.RemoveTerminated, S.StartRequests, S.BestIfExhausted, R.Inv;
    X.Remove(s, false);
    RemovedTable(s, false);
    var s2 := S.RemoveTerminated(s, false);
    SameTable(s, s2);
    Tables(s2);
    StartRequestsSame(s2, env);
    SameTable(s2, s2);
    var s3 := if start then S.StartRequests(s2, env).0 else s2;
    Chained(s, s2, s3);
    BestSame(s3, env);
    Chained(s, s3, S.BestIfExhausted(s3, env));
  }

  lemma RemovedTable(s: S.Core, also: bool)
    ensures S.RemoveTerminated(s, also).clients == s.clients
  {
  }

  lemma Tables(s: S.Core)
    requires R.Inv(s)
    ensures R.Distinct(s.vec) && R.InTable(s.vec, s.clients)
  {
  }

  lemma ProcessResponseSame(s: S.Core, r: Response, added: seq<Tx>, env: S.Env)
    requires R.Inv(s) && R.Fresh(added, s.clients)
    ensures SameFlags(s, S.ProcessResponse(s, r, added, env))
  {
    hide R.Inv, R.Fresh, SameFlags, S.ClientResponse, S.RemoveTerminated, S.ForwardBest, S.StartRequests,
         S.BestIfExhausted, S.Find;
    var o := S.Find(s.vec, s, r);
    var s1 := if o.Some? then S.ClientResponse(s, o.value, r, added, env) else s;
    Tables(s);
    SameTable(s, s);
    if o.Some? {
      X.VectorFact(s, o.value);
      ClientResponseSame(s, o.value, r, added, env);
      X.ClientResponseKeeps(s, o.value, r, added, env);
    }
    RemovedTable(s1, true);
    var v := S.RemoveTerminated(s1, true);
    SameTable(s1, v);
    BestSame(v, env);
    Chained(s, s1, v);
    Chained(s, v, S.ForwardBest(v, env));
    GoOnSame(s1, r.status > 200, env);
    Chained(s, s1, S.BestIfExhausted(
      if r.status > 200 then S.StartRequests(S.RemoveTerminated(s1, false), env).0
      else S.RemoveTerminated(s1, false), env));
  }

  /** A firing timer changes the flag of its own transaction only. */
  lemma ExpireFlags(s: S.Core, c: Tx, t: Timer, env: S.Env)
    requires c in s.clients
    ensures var u := S.Expire(s, c, t, env);
      && u.clients.Keys == s.clients.Keys
      && forall d :: d in s.clients ==>
           S.At(u, d).failed == (S.At(s, d).failed || X.ResendFails(X.TimerFires(c, t, env), d))
  {
    TimerKeeps(S.At(s, c), t, S.Queues(s, c, env), env.sends(c), env.cancelOk(c));
    var r := OnTimer(S.At(s, c), t, S.Queues(s, c, env), env.sends(c), env.cancelOk(c));
    hide OnTimer, S.Expire;
    assert S.Expire(s, c, t, env).clients == s.clients[c := r] by { ExpireTable(s, c, t, env); }
  }

  lemma ExpireTable(s: S.Core, c: Tx, t: Timer, env: S.Env)
    ensures S.Expire(s, c, t, env).clients ==
      s.clients[c := OnTimer(S.At(s, c), t, S.Queues(s, c, env), env.sends(c), env.cancelOk(c))]
  {
    hide OnTimer;
  }

  lemma TimerFiresSame(s: S.Core, c: Tx, t: Timer, env: S.Env)
    requires R.Inv(s) && c in s.clients && S.At(s, c).Queued(t) > 0
    ensures SameFlags(S.Expire(s, c, t, env), S.TimerFires(s, c, t, env))
  {
    hide R.Inv, SameFlags, S.Expire, S.RemoveTerminated, S.StartRequests, S.BestIfExhausted;
    X.ExpireKeeps(s, c, t, env);
    var s1 := S.Expire(s, c, t, env);
    SameTable(s1, s1);
    RemovedTable(s1, false);
    SameTable(s1, S.RemoveTerminated(s1, false));
    GoOnSame(s1, false, env);
    GoOnSame(s1, true, env);
  }

  lemma InfoSame(s: S.Core, env: S.Env)
    requires R.InTable(s.vec, s.clients)
    ensures SameFlags(s, S.InfoArrives(s, env))
  {
    hide ForwardRequest, S.FindPending;
    var o := S.FindPending(s.vec, s);
    if o.Some? {
      ForwardKeeps(S.At(s, o.value), s.config.invite, S.Queues(s, o.value, env), env.sends(o.value));
    }
  }

  lemma PrackSame(s: S.Core, rseq: nat, key: nat)
    requires R.InTable(s.vec, s.clients)
    ensures SameFlags(s, S.PrackArrives(s, rseq, key))
  {
    hide S.FindRSeq;
  }

  lemma CancelArrivesSame(s: S.Core, env: S.Env)
    requires R.Inv(s)
    ensures SameFlags(s, S.CancelArrives(s, env))
  {
    hide S.CancelOutstanding, SameFlags, R.Inv;
    Tables(s);
    var s1 := S.Answer(s.(canceled := true), S.Made(487));
    SameTable(s, s1);
    CancelAllSame(s1, env);
    Chained(s, s1, S.CancelOutstanding(s1, env));
  }

  // ---------- runs ----------

  lemma StepFlags(s: S.Core, e: X.Event)
    requires R.Inv(s) && X.Enabled(s, e)
    ensures var u := X.Step(s, e);
      && (forall c :: c in s.clients ==>
            c in u.clients && S.At(u, c).failed == (S.At(s, c).failed || X.ResendFails(e, c)))
      && (forall c :: c in u.clients && c !in s.clients ==> !S.At(u, c).failed && !X.ResendFails(e, c))
  {
    hide R.Inv, S.TimerFires, S.ProcessResponse, S.CancelArrives, S.InfoArrives, S.PrackArrives, S.Expire;
    Tables(s);
    match e
    case TimerFires(c, t, env) =>
      ExpireFlags(s, c, t, env);
      TimerFiresSame(s, c, t, env);
    case ResponseArrives(r, added, env) => ProcessResponseSame(s, r, added, env);
    case CancelArrives(env) => CancelArrivesSame(s, env);
    case InfoArrives(env) => InfoSame(s, env);
    case PrackArrives(rseq, key, _) => PrackSame(s, rseq, key);
  }

  lemma BeginFlags(config: S.Config, targets: seq<Tx>, env: S.Env)
    requires R.Distinct(targets)
    ensures forall c :: c in S.Begin(S.NewCore(config, targets), env).clients ==>
      !S.At(S.Begin(S.NewCore(config, targets), env), c).failed
  {
    var s0 := S.Core(config, map[], targets, true, false, true, [], [], []);
    NewSame(s0, targets);
    hide S.NewClients, S.StartRequests;
    NewTable(config, targets);
    var s := S.NewCore(config, targets);
    StartRequestsSame(s, env);
  }

  lemma NewTable(config: S.Config, targets: seq<Tx>)
    requires R.Distinct(targets)
    ensures var s := S.NewCore(config, targets); R.InTable(s.vec, s.clients)
  {
    var s0 := S.Core(config, map[], targets, true, false, true, [], [], []);
    assert R.TimersRight(s0.clients) && R.LaunchedOnce(s0.launches, s0.clients);
    R.NewClientsKeep(s0, targets);
    hide R.TimersRight, R.LaunchedOnce, S.NewClients;
  }

  /** The flag of a transaction is set exactly if a retransmission of its own has failed in the send. */
  lemma {:induction false} FailedExactly(start: X.Opening, events: seq<X.Event>, states: seq<S.Core>, k: nat, c: Tx)
    requires X.IsRun(start, events, states) && k <= |events| && c in states[k].clients
    ensures states[k].clients[c].failed <==> exists j :: 0 <= j < k && X.ResendFails(events[j], c)
  {
    hide S.Begin, X.Step, X.Enabled, X.ResendFails, R.Inv, S.Sorts;
    if k == 0 {
      BeginFlags(start.config, start.targets, start.env);
    } else {
      X.InvOfRun(start, events, states, k - 1);
      StepFlags(states[k - 1], events[k - 1]);
      if c in states[k - 1].clients {
        FailedExactly(start, events, states, k - 1, c);
      } else {
        NeverBefore(start, events, states, k - 1, c);
      }
    }
  }

  /** Nothing has fired for a transaction that is not there yet. */
  lemma {:induction false} NeverBefore(start: X.Opening, events: seq<X.Event>, states: seq<S.Core>, k: nat, c: Tx)
    requires X.IsRun(start, events, states) && k <= |events| && c !in states[k].clients
    ensures forall j :: 0 <= j < k ==> !X.ResendFails(events[j], c)
  {
    hide S.Begin, X.Step, R.Inv, S.Sorts;
    if k > 0 {
      X.InvOfRun(start, events, states, k - 1);
      StepFlags(states[k - 1], events[k - 1]);
      NeverBefore(start, events, states, k - 1, c);
    }
  }

  /** On every run, whatever happens to other branches: the timers of a branch are right in every respect
      as long as no retransmission of its own has failed in the send, and after that while it has not
      terminated, which such a failure makes it do. */
  lemma RightUnlessItsOwnFails(start: X.Opening, events: seq<X.Event>, states: seq<S.Core>, k: nat, c: Tx)
    requires X.IsRun(start, events, states) && k <= |events| && c in states[k].clients
    ensures (forall j :: 0 <= j < k ==> !X.ResendFails(events[j], c)) ==> T.Inv(states[k].clients[c])
    ensures states[k].clients[c].state != Terminated ==> T.Inv(states[k].clients[c])
    ensures !T.Inv(states[k].clients[c]) ==>
      states[k].clients[c].state == Terminated && exists j :: 0 <= j < k && X.ResendFails(events[j], c)
  {
    X.InvOfRun(start, events, states, k);
    X.TableRight(states[k], c);
    FailedExactly(start, events, states, k, c);
    hide X.IsRun, X.ResendFails, T.Inv;
    if states[k].clients[c].state != Terminated || !states[k].clients[c].failed {
      T.SoundInv(states[k].clients[c]);
    }
  }
}
