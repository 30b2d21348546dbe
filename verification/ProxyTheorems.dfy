/** Whole runs of a proxy: timers only where they belong, a one-way search, the best response
    (src/sip-proxy-controller.cpp). */
module ProxyTheorems {
  import opened Wrappers
  import opened ProxyTransactions
  import S = ProxySpec
  import T = ProxyTimers
  import R = ProxyRuns

  type Tx = ClientTransaction

  // ---------- steps keep the invariant ----------

  lemma TakeOwnKeeps(s: S.Core, c: Tx, r: Response, added: seq<Tx>, env: S.Env)
    requires R.Inv(s) && c in s.clients && R.Fresh(added, s.clients)
    requires S.At(s, c).transmitCount > 0 && S.At(s, c).state != Terminated
    requires S.At(s, c).state == Completed ==> r.status <= 199
    ensures var u := S.TakeOwn(s, c, r, added, env); R.Inv(u) && R.OneWay(s, u)
  {
    hide R.Inv, R.Base, R.Clean, TakeStatus, Settle, S.NotifyForwarded200OK, S.AddClientTransactions;
    if 200 <= r.status <= 299 {
      Split(s);
      R.SuccessTaken(s, c, r, env);
      var s2 := S.NotifyForwarded200OK(S.Put(s, c, TakeStatus(S.At(s, c), r, S.Queues(s, c, env))), env);
      Answered(S.Put(s2, c, Settle(S.At(s2, c), r)), S.Relayed(r));
    } else {
      R.OtherTaken(s, c, r, env);
      var s1 := S.Put(s, c, TakeStatus(S.At(s, c), r, S.Queues(s, c, env)));
      var s3 := S.Put(s1, c, Settle(S.At(s1, c), r));
      SamePut(s, c, TakeStatus(S.At(s, c), r, S.Queues(s, c, env)), Settle(S.At(s1, c), r));
      Answered(s3, S.Relayed(r));
      assert R.Fresh(added, s3.clients);
      R.AddKeeps(s3, c, added);
    }
  }

  lemma Split(s: S.Core)
    requires R.Inv(s)
    ensures R.Base(s) && R.Clean(s)
  {
  }

  lemma SamePut(s: S.Core, c: Tx, r1: Client, r2: Client)
    ensures S.Put(S.Put(s, c, r1), c, r2) == S.Put(s, c, r2)
  {
    assert S.Put(S.Put(s, c, r1), c, r2).clients == S.Put(s, c, r2).clients;
  }

  lemma Answered(s: S.Core, u: S.Up)
    requires R.Inv(s)
    ensures R.Inv(S.Answer(s, u))
  {
    hide R.TimersRight, R.LaunchedOnce;
  }

  lemma ClientResponseKeeps(s: S.Core, c: Tx, r: Response, added: seq<Tx>, env: S.Env)
    requires R.Inv(s) && c in s.clients && R.Fresh(added, s.clients)
    ensures var u := S.ClientResponse(s, c, r, added, env); R.Inv(u) && R.OneWay(s, u)
  {
    hide R.Inv, S.TakeOwn, S.CancelOne, SetState;
    Transmitted(s, c);
    if S.At(s, c).state == Terminated {
    } else if LateForCanceled(S.At(s, c), r) {
      LateKeeps(s, c, env);
    } else if r.cseq != Own || S.At(s, c).sipMethod == Unknown || (S.At(s, c).state == Completed && r.status >= 200) {
    } else {
      TakeOwnKeeps(s, c, r, added, env);
    }
  }

  lemma LateKeeps(s: S.Core, c: Tx, env: S.Env)
    requires R.Inv(s) && c in s.clients && S.At(s, c).state == Completed && S.At(s, c).transmitCount > 0
    ensures
      var u := S.CancelOne(S.Put(s, c, SetState(S.At(s, c), Proceeding, S.Queues(s, c, env))), c, env);
      R.Inv(u) && R.OneWay(s, u)
  {
    var t := S.At(s, c);
    TableRight(s, c);
    T.ProceedingKeeps(t, S.Queues(s, c, env));
    T.InvSound(SetState(t, Proceeding, S.Queues(s, c, env)));
    var s1 := S.Put(s, c, SetState(t, Proceeding, S.Queues(s, c, env)));
    hide T.Inv, T.Sound, SetState, CancelRequest;
    R.PutKeeps(s, c, SetState(t, Proceeding, S.Queues(s, c, env)));
    R.PutClean(s, c, SetState(t, Proceeding, S.Queues(s, c, env)));
    R.CancelFacts(S.At(s1, c), env.cancelOk(c), S.Queues(s1, c, env));
    R.CancelOneKeeps(s1, c, env);
    R.PutClean(s1, c, CancelRequest(S.At(s1, c), env.cancelOk(c), S.Queues(s1, c, env)).0);
  }

  /** A transaction takes on the method of its request when it is first transmitted. */
  lemma Transmitted(s: S.Core, c: Tx)
    requires R.Inv(s) && c in s.clients
    ensures S.At(s, c).transmitCount > 0 <==> S.At(s, c).sipMethod != Unknown
    ensures S.At(s, c).state == Completed ==> S.At(s, c).transmitCount > 0
  {
  }

  lemma VectorFact(s: S.Core, c: Tx)
    requires R.Inv(s) && c in s.vec
    ensures c in s.clients
  {
  }

  lemma ProcessResponseKeeps(s: S.Core, r: Response, added: seq<Tx>, env: S.Env)
    requires R.Inv(s) && R.Fresh(added, s.clients) && S.Sorts(env.sort)
    ensures var u := S.ProcessResponse(s, r, added, env); R.Inv(u) && R.OneWay(s, u)
  {
    hide R.Inv, R.Base, R.Clean, R.Fresh, S.ClientResponse, S.RemoveTerminated, S.ForwardBest, S.StartRequests,
         S.BestIfExhausted, S.Sorts, S.Find;
    var o := S.Find(s.vec, s, r);
    var s1 := if o.Some? then S.ClientResponse(s, o.value, r, added, env) else s;
    if o.Some? {
      VectorFact(s, o.value);
      ClientResponseKeeps(s, o.value, r, added, env);
    }
    Remove(s1, true);
    Remove(s1, false);
    if (r.status == 401 || r.status == 407) && r.challenge {
      Split(S.RemoveTerminated(s1, true));
      R.ForwardBestKeeps(S.RemoveTerminated(s1, true), env);
    } else {
      var s2 := S.RemoveTerminated(s1, false);
      R.StartKeeps(s2, env);
      R.BestIfExhaustedKeeps(if r.status > 200 then S.StartRequests(s2, env).0 else s2, env);
    }
  }

  lemma Remove(s: S.Core, also: bool)
    requires R.Inv(s)
    ensures var u := S.RemoveTerminated(s, also); R.Inv(u) && R.OneWay(s, u)
  {
    hide R.Base, R.Clean;
    R.RemoveKeeps(s, also);
  }

  lemma OnTimerFacts(t: Client, timer: Timer, q: Adds, send: Send, cancelSent: bool)
    requires T.Sound(t) && t.Queued(timer) > 0
    ensures
      var u := OnTimer(t, timer, q, send, cancelSent);
      u.transmitCount > 0 && t.transmitCount > 0 && !R.Success(u)
  {
    if timer == A || timer == E {
      ResendFacts(t, timer, q, send, cancelSent);
    } else {
      T.TimersFireWhereMeant(t, timer);
      EndFacts(t, timer, q, send, cancelSent);
    }
  }

  lemma ResendFacts(t: Client, timer: Timer, q: Adds, send: Send, cancelSent: bool)
    requires T.Sound(t) && t.Queued(timer) > 0 && (timer == A || timer == E)
    ensures
      var u := OnTimer(t, timer, q, send, cancelSent);
      u.transmitCount > 0 && t.transmitCount > 0 && !R.Success(u)
  {
    var u := OnTimer(t, timer, q, send, cancelSent);
    assert u.state == if send == Failed then Terminated else t.state;
  }

  lemma EndFacts(t: Client, timer: Timer, q: Adds, send: Send, cancelSent: bool)
    requires T.Sound(t) && t.Queued(timer) > 0 && timer != A && timer != E
    requires timer == C ==> t.state == Calling || t.state == Proceeding
    ensures
      var u := OnTimer(t, timer, q, send, cancelSent);
      u.transmitCount > 0 && t.transmitCount > 0 && !R.Success(u)
  {
    if timer == C {
      TimerCEnds(t, q, send, cancelSent);
    } else {
      var u := OnTimer(t, timer, q, send, cancelSent);
      assert u.transmitCount == t.transmitCount && u.status == t.status;
      assert u.state == if timer == Provisional then Completed else Terminated;
    }
  }

  lemma TimerCEnds(t: Client, q: Adds, send: Send, cancelSent: bool)
    requires t.state == Calling || t.state == Proceeding
    ensures
      var u := OnTimer(t, C, q, send, cancelSent);
      u.state == Terminated && u.transmitCount == t.transmitCount
  {
    var t1 := Fired(t, C);
    var t2 := if t.state == Proceeding then CancelRequest(t1, cancelSent, q).0 else t1;
    assert t2.state == t.state && t2.transmitCount == t.transmitCount;
    hide CancelRequest;
  }

  lemma ExpireKeeps(s: S.Core, c: Tx, t: Timer, env: S.Env)
    requires R.Inv(s) && c in s.clients && S.At(s, c).Queued(t) > 0
    ensures var u := S.Expire(s, c, t, env); R.Inv(u) && R.OneWay(s, u)
  {
    hide OnTimer, T.Sound;
    var r := OnTimer(S.At(s, c), t, S.Queues(s, c, env), env.sends(c), env.cancelOk(c));
    TableRight(s, c);
    OnTimerFacts(S.At(s, c), t, S.Queues(s, c, env), env.sends(c), env.cancelOk(c));
    T.SoundTimer(S.At(s, c), t, S.Queues(s, c, env), env.sends(c), env.cancelOk(c));
    R.PutKeeps(s, c, r);
    R.PutClean(s, c, r);
    OnlyRecords(S.Put(s, c, r), S.Expire(s, c, t, env));
  }

  lemma OnlyRecords(s: S.Core, r: S.Core)
    requires R.Inv(s) && r == s.(cancels := r.cancels, upstream := r.upstream, canceled := r.canceled)
    ensures R.Inv(r)
  {
    hide R.TimersRight, R.LaunchedOnce, R.InTable;
  }

  lemma TimerFiresKeeps(s: S.Core, c: Tx, t: Timer, env: S.Env)
    requires R.Inv(s) && c in s.clients && S.At(s, c).Queued(t) > 0 && S.Sorts(env.sort)
    ensures var u := S.TimerFires(s, c, t, env); R.Inv(u) && R.OneWay(s, u)
  {
    hide R.Inv, S.Expire, S.RemoveTerminated, S.StartRequests, S.BestIfExhausted, S.Sorts;
    ExpireKeeps(s, c, t, env);
    var s1 := S.Expire(s, c, t, env);
    Remove(s1, false);
    var s2 := S.RemoveTerminated(s1, false);
    R.StartKeeps(s2, env);
    R.BestIfExhaustedKeeps(if t == Provisional then S.StartRequests(s2, env).0 else s2, env);
  }

  lemma CancelArrivesKeeps(s: S.Core, env: S.Env)
    requires R.Inv(s)
    ensures var u := S.CancelArrives(s, env); R.Inv(u) && R.OneWay(s, u)
  {
    var s1 := S.Answer(s.(canceled := true), S.Made(487));
    assert R.Base(s1) by { hide R.TimersRight, R.LaunchedOnce; }
    hide R.Base, R.Clean, S.CancelOutstanding, R.CanceledFrom;
    R.CancelKeeps(s1, env);
  }

  lemma InfoFacts(t: Client, invite: bool, q: Adds, send: Send)
    requires S.Pending(t) && t.transmitCount > 0
    ensures
      var u := ForwardRequest(t, invite, q, send).0;
      u.transmitCount > 0 && !R.Success(u)
  {
  }

  lemma PendingSent(s: S.Core, c: Tx)
    requires R.Inv(s) && c in s.vec && S.Pending(S.At(s, c))
    ensures c in s.clients && T.Inv(S.At(s, c)) && S.At(s, c).transmitCount > 0
  {
  }

  lemma InfoKeeps(s: S.Core, env: S.Env)
    requires R.Inv(s)
    ensures var u := S.InfoArrives(s, env); R.Inv(u) && R.OneWay(s, u)
  {
    hide T.Inv, T.Sound, ForwardRequest, S.FindPending, R.Base, R.Clean;
    var o := S.FindPending(s.vec, s);
    if o.Some? {
      var c := o.value;
      PendingSent(s, c);
      T.ForwardKeeps(S.At(s, c), s.config.invite, S.Queues(s, c, env), env.sends(c));
      InfoFacts(S.At(s, c), s.config.invite, S.Queues(s, c, env), env.sends(c));
      var r := ForwardRequest(S.At(s, c), s.config.invite, S.Queues(s, c, env), env.sends(c)).0;
      T.InvSound(r);
      R.PutKeeps(s, c, r);
      R.PutClean(s, c, r);
    }
  }

  lemma PrackKeeps(s: S.Core, rseq: nat, key: nat)
    requires R.Inv(s)
    ensures var u := S.PrackArrives(s, rseq, key); R.Inv(u) && R.OneWay(s, u)
  {
    var o := S.FindRSeq(s.vec, s, rseq);
    if o.Some? {
      var r := S.At(s, o.value).(prackBranch := Some(key));
      VectorFact(s, o.value);
      KeyKeeps(S.At(s, o.value), key);
      TableRight(s, o.value);
      hide T.Sound, R.Base, R.Clean;
      R.PutKeeps(s, o.value, r);
      R.PutClean(s, o.value, r);
    }
  }

  lemma KeyKeeps(t: Client, key: nat)
    ensures T.Sound(t) ==> T.Sound(t.(prackBranch := Some(key)))
  {
  }

  /** A PRACK's response is never taken by the branch that sent it, and unless PRACK is what the proxy
      forwards it changes nothing in the branch that takes it. */
  lemma PrackResponse(s: S.Core, r: Response, added: seq<Tx>, env: S.Env)
    requires r.prack && S.Find(s.vec, s, r).Some?
    ensures var c := S.Find(s.vec, s, r).value;
      && S.At(s, c).prackBranch != Some(r.branch)
      && (r.cseq != Own ==> S.ClientResponse(s, c, r, added, env) == s)
  {
  }

  lemma BeginKeeps(config: S.Config, targets: seq<Tx>, env: S.Env)
    requires R.Distinct(targets)
    ensures R.Inv(S.Begin(S.NewCore(config, targets), env))
  {
    var s0 := S.Core(config, map[], targets, true, false, true, [], [], []);
    assert R.TimersRight(s0.clients) && R.LaunchedOnce(s0.launches, s0.clients);
    R.NewClientsKeep(s0, targets);
    var s := S.NewCore(config, targets);
    hide R.TimersRight, R.LaunchedOnce, S.StartRequests, S.NewClients;
    assert R.Clean(s);
    R.StartKeeps(s, env);
    Answered(S.StartRequests(s, env).0, S.Made(500));
  }

  // ---------- runs ----------

  datatype Event =
    | TimerFires(c: Tx, t: Timer, env: S.Env)
    | ResponseArrives(r: Response, added: seq<Tx>, env: S.Env)
    | CancelArrives(env: S.Env)
    | InfoArrives(env: S.Env)
    | PrackArrives(rseq: nat, key: nat, env: S.Env)

  /** A timer fires only if it is queued; messages reach the proxy while the controller knows it. */
  predicate Enabled(s: S.Core, e: Event) {
    match e
    case TimerFires(c, t, _) => c in s.clients && S.At(s, c).Queued(t) > 0
    case ResponseArrives(r, added, _) => s.live && R.Fresh(added, s.clients) && |added| == |r.contacts|
    case _ => s.live
  }

  /** A retransmission of this branch fails in the send itself. */
  predicate ResendFails(e: Event, c: Tx) {
    e.TimerFires? && e.c == c && (e.t == A || e.t == E) && e.env.sends(c) == Failed
  }

  function Step(s: S.Core, e: Event): S.Core {
    match e
    case TimerFires(c, t, env) => S.TimerFires(s, c, t, env)
    case ResponseArrives(r, added, env) => S.ProcessResponse(s, r, added, env)
    case CancelArrives(env) => S.CancelArrives(s, env)
    case InfoArrives(env) => S.InfoArrives(s, env)
    case PrackArrives(rseq, key, _) => S.PrackArrives(s, rseq, key)
  }

  /** What a proxy is made with, and what the stack answers as it starts. */
  datatype Opening = Opening(config: S.Config, targets: seq<Tx>, env: S.Env)

  ghost predicate IsRun(start: Opening, events: seq<Event>, states: seq<S.Core>) {
    && |states| == |events| + 1 && R.Distinct(start.targets)
    && states[0] == S.Begin(S.NewCore(start.config, start.targets), start.env)
    && forall i :: 0 <= i < |events| ==>
         Enabled(states[i], events[i]) && S.Sorts(events[i].env.sort)
         && states[i + 1] == Step(states[i], events[i])
  }

  lemma StepKeeps(s: S.Core, e: Event)
    requires R.Inv(s) && Enabled(s, e) && S.Sorts(e.env.sort)
    ensures R.Inv(Step(s, e)) && R.OneWay(s, Step(s, e))
  {
    hide R.Inv, R.OneWay, S.TimerFires, S.ProcessResponse, S.CancelArrives, S.InfoArrives, S.PrackArrives,
         S.Sorts;
    match e {
      case TimerFires(c, t, env) => TimerFiresKeeps(s, c, t, env);
      case ResponseArrives(r, added, env) => ProcessResponseKeeps(s, r, added, env);
      case CancelArrives(env) => CancelArrivesKeeps(s, env);
      case InfoArrives(env) => InfoKeeps(s, env);
      case PrackArrives(rseq, key, _) => PrackKeeps(s, rseq, key);
    }
  }

  lemma {:induction false} InvOfRun(start: Opening, events: seq<Event>, states: seq<S.Core>, k: nat)
    requires IsRun(start, events, states) && k <= |events|
    ensures R.Inv(states[k])
  {
    hide R.Inv, S.Begin, Step, Enabled, S.Sorts;
    if k == 0 {
      BeginKeeps(start.config, start.targets, start.env);
    } else {
      InvOfRun(start, events, states, k - 1);
      StepKeeps(states[k - 1], events[k - 1]);
    }
  }

  /** On every run, with late, repeated and reordered responses and whatever the sends do: timers B and
      provisional are queued only while calling, C only while calling or proceeding, F only while trying or
      proceeding, and A and E only while calling and trying or in a transaction that a failed
      retransmission has terminated. So their handlers find the states they assert, but for A and E after
      such a failure. All but K are queued at most once, only with their handle set, and with the handle set
      exactly if the add was not lost. */
  lemma TimersNeverSurprise(start: Opening, events: seq<Event>, states: seq<S.Core>, k: nat, c: Tx)
    requires IsRun(start, events, states) && k <= |events| && c in states[k].clients
    ensures var r := states[k].clients[c];
      && (r.timerB.queued > 0 || r.provisional.queued > 0 ==> r.state == Calling)
      && (r.timerC.queued > 0 ==> r.state == Calling || r.state == Proceeding)
      && (r.timerF.queued > 0 ==> r.state == Trying || r.state == Proceeding)
      && (r.timerA.queued > 0 ==> r.state == Calling || (r.state == Terminated && r.failed))
      && (r.timerE.queued > 0 ==> r.state == Trying || (r.state == Terminated && r.failed))
      && T.Tells(r.timerA) && T.Tells(r.timerB) && T.Tells(r.timerC) && T.Tells(r.timerD)
      && T.Tells(r.provisional) && T.Tells(r.timerE) && T.Tells(r.timerF)
    ensures var r := states[k].clients[c];
      && (r.state == Calling <==> r.timerB.held) && (r.state == Trying ==> r.timerF.held)
      && (r.state == Completed ==> r.timerD.held || r.timerK.held)
  {
    InvOfRun(start, events, states, k);
    hide IsRun;
    TableRight(states[k], c);
    T.HandlesTell(states[k].clients[c]);
  }

  /** When timers D and K find a state that they do not assert, on every run: D exactly if a late response
      has led back from completed since, K exactly in that case or as a further entry of K. */
  lemma FinalTimersFind(start: Opening, events: seq<Event>, states: seq<S.Core>, k: nat, c: Tx, t: Timer)
    requires IsRun(start, events, states) && k <= |events| && (t == D || t == K)
    requires c in states[k].clients && states[k].clients[c].Queued(t) > 0
    ensures var r := states[k].clients[c];
      r.state != Completed <==> r.late || (t == K && !r.timerK.held)
  {
    InvOfRun(start, events, states, k);
    hide IsRun;
    TableRight(states[k], c);
    T.FinalTimersExactly(states[k].clients[c], t);
  }

  /** The responses that lead back from completed, exactly: any to a branch that was cancelled before one
      came, and a provisional one to the request itself. */
  lemma LeadsBack(s: S.Core, c: Tx, r: Response, added: seq<Tx>, env: S.Env)
    requires R.Inv(s) && c in s.clients && S.At(s, c).state == Completed
    ensures var u := S.At(S.ClientResponse(s, c, r, added, env), c);
      && (u.state != Completed <==> LateForCanceled(S.At(s, c), r) || (r.cseq == Own && r.status <= 199))
      && (u.state != Completed ==> u.state == Proceeding && u.late)
  {
    var t := S.At(s, c);
    var q := S.Queues(s, c, env);
    TableRight(s, c);
    BackFacts(t, r, env.cancelOk(c), q);
    hide T.Inv, R.Inv, SetState, TakeStatus, Settle, CancelRequest, S.TakeOwn;
    if LateForCanceled(t, r) {
      assert S.Queues(S.Put(s, c, SetState(t, Proceeding, q)), c, env) == q;
    } else if r.cseq == Own && r.status <= 199 {
      OwnProvisional(s, c, r, added, env);
    }
  }

  lemma OwnProvisional(s: S.Core, c: Tx, r: Response, added: seq<Tx>, env: S.Env)
    requires r.status <= 199
    ensures S.At(S.TakeOwn(s, c, r, added, env), c) == Settle(TakeStatus(S.At(s, c), r, S.Queues(s, c, env)), r)
  {
    hide TakeStatus, Settle;
  }

  lemma BackFacts(t: Client, r: Response, ok: bool, q: Adds)
    requires T.Inv(t) && t.state == Completed
    ensures var u := CancelRequest(SetState(t, Proceeding, q), ok, q).0;
      u.state == Proceeding && u.late
    ensures r.status <= 199 ==>
      var u := Settle(TakeStatus(t, r, q), r); u.state == Proceeding && u.late
  {
    var u := SetState(t, Proceeding, q);
    assert u.state == Proceeding && u.late;
  }

  lemma TableRight(s: S.Core, c: Tx)
    requires R.Inv(s) && c in s.clients
    ensures T.Sound(s.clients[c]) && (s.clients[c].state != Terminated ==> T.Inv(s.clients[c]))
  {
  }

  /** The search is one-way: every transaction is launched at most once, what has been launched stays
      so, and once the search is over nothing is launched any more. */
  lemma {:induction false} SearchIsOneWay(start: Opening, events: seq<Event>, states: seq<S.Core>, i: nat, j: nat)
    requires i <= j <= |events| && IsRun(start, events, states)
    ensures states[i].launches <= states[j].launches && R.Distinct(states[j].launches)
    ensures !states[i].searching ==> !states[j].searching && states[j].launches == states[i].launches
    decreases j - i
  {
    hide R.Inv, S.Begin, Step, Enabled, S.Sorts, IsRun;
    if i < j {
      SearchIsOneWay(start, events, states, i, j - 1);
      StepOfRun(start, events, states, j - 1);
    }
    InvOfRun(start, events, states, j);
    assert |states| == |events| + 1 by { RunLength(start, events, states); }
    LaunchesDistinct(states[j]);
  }

  lemma RunLength(start: Opening, events: seq<Event>, states: seq<S.Core>)
    requires IsRun(start, events, states)
    ensures |states| == |events| + 1
  {
  }

  lemma LaunchesDistinct(s: S.Core)
    requires R.Inv(s)
    ensures R.Distinct(s.launches)
  {
  }

  lemma StepOfRun(start: Opening, events: seq<Event>, states: seq<S.Core>, k: nat)
    requires IsRun(start, events, states) && k < |events|
    ensures R.OneWay(states[k], states[k + 1])
  {
    hide R.Inv, S.Begin, Step, Enabled, S.Sorts, R.OneWay;
    InvOfRun(start, events, states, k);
    StepKeeps(states[k], events[k]);
  }

  // ---------- launching and cancelling the branches ----------

  /** While the search is on, a serial proxy starts one branch at most; if it starts none, or is not
      serial, no branch is left waiting. */
  lemma StartsWhatItShould(s: S.Core, env: S.Env)
    requires R.Inv(s) && s.searching
    ensures var (u, n) := S.StartRequests(s, env);
      && (s.config.serial ==> n <= 1)
      && (!s.config.serial || n == 0 ==> forall c :: c in u.vec ==> S.At(u, c).state != NotStarted)
  {
    Split(s);
    StartedFrom(s, 0, env);
    assert s.vec[0..] == s.vec;
    R.StartFromKeeps(s, 0, env);
  }

  lemma {:induction false} StartedFrom(s: S.Core, i: nat, env: S.Env)
    requires R.Base(s) && s.searching && i <= |s.vec|
    ensures var (u, n) := S.StartFrom(s, i, env);
      && (s.config.serial ==> n <= 1)
      && (forall c :: c in s.clients && S.At(s, c).state != NotStarted ==> S.At(u, c).state != NotStarted)
      && (!s.config.serial || n == 0 ==> forall c :: c in s.vec[i..] ==> S.At(u, c).state != NotStarted)
    decreases |s.vec| - i
  {
    hide R.Base, S.Launch;
    if i < |s.vec| {
      var c := s.vec[i];
      assert s.vec[i..] == [c] + s.vec[i + 1..];
      R.TableFact(s, i);
      if S.At(s, c).state != NotStarted {
        StartedFrom(s, i + 1, env);
      } else {
        R.LaunchKeeps(s, c, env);
        var s1 := S.Launch(s, c, env).0;
        OthersNotReset(s, c, env);
        if !(S.Launch(s, c, env).1 && s.config.serial) {
          StartedFrom(s1, i + 1, env);
        }
      }
    }
  }

  lemma OthersNotReset(s: S.Core, c: Tx, env: S.Env)
    requires R.Base(s) && c in s.clients && S.At(s, c).state == NotStarted
    ensures var u := S.Launch(s, c, env).0;
      && S.At(u, c).state != NotStarted
      && forall d :: d in s.clients && S.At(s, d).state != NotStarted ==>
           d in u.clients && S.At(u, d).state != NotStarted
  {
    R.LaunchFacts(S.At(s, c), s.config.invite, S.Queues(s, c, env), env.sends(c));
    hide ForwardRequest, T.Inv;
  }

  /** Right after the branches are cancelled none is calling or waiting to be launched, none has been
      launched by it, and each that is proceeding was proceeding before and has had a CANCEL sent,
      unless the stack could not send it. */
  lemma CancelReachesAll(s: S.Core, env: S.Env, c: Tx)
    requires R.Inv(s) && c in s.vec
    ensures var u := S.CancelOutstanding(s, env);
      && u.vec == s.vec && !u.searching && u.launches == s.launches
      && S.At(u, c).state != Calling && S.At(u, c).state != NotStarted
      && (S.At(u, c).state == Proceeding <==> S.At(s, c).state == Proceeding)
      && (S.At(u, c).state == Proceeding && env.cancelOk(c) ==> S.At(u, c).canceled && c in u.cancels)
      && s.cancels <= u.cancels
  {
    VectorFact(s, c);
    TableRight(s, c);
    R.CancelKeeps(s, env);
    R.CancelFacts(S.At(s, c), env.cancelOk(c), S.Queues(s, c, env));
    hide T.Inv, R.Base, R.Clean, S.CancelOutstanding, CancelRequest;
    assert S.At(s.(searching := false), c) == S.At(s, c);
  }

  /** A 2xx for a branch that is still waiting for a final response ends the search for good: it is
      relayed, nothing is launched by it or after it, and every branch left is past calling. */
  lemma SuccessEndsSearch(s: S.Core, r: Response, added: seq<Tx>, env: S.Env, c: Tx)
    requires R.Inv(s) && R.Fresh(added, s.clients) && S.Sorts(env.sort)
    requires S.Find(s.vec, s, r) == Some(c) && r.cseq == Own && 200 <= r.status <= 299
    requires S.Pending(S.At(s, c)) || S.At(s, c).state == Trying
    ensures var u := S.ProcessResponse(s, r, added, env);
      && !u.searching && u.launches == s.launches
      && u.upstream == s.upstream + (if env.relayOk then [S.Relayed(r)] else [])
      && Settled(u)
  {
    hide R.Inv, S.ClientResponse, S.Sorts, R.Fresh, S.Find, S.RemoveTerminated, Settled;
    VectorFact(s, c);
    Sent(s, c);
    TakenLeaves(s, r, added, env, c);
    RemovedLeaves(S.ClientResponse(s, c, r, added, env));
  }

  lemma Sent(s: S.Core, c: Tx)
    requires R.Inv(s) && c in s.clients && (S.Pending(S.At(s, c)) || S.At(s, c).state == Trying)
    ensures S.At(s, c).transmitCount > 0
  {
  }

  lemma TakenLeaves(s: S.Core, r: Response, added: seq<Tx>, env: S.Env, c: Tx)
    requires R.Inv(s) && c in s.vec && S.At(s, c).transmitCount > 0 && r.cseq == Own && 200 <= r.status <= 299
    requires S.At(s, c).state != Terminated && S.At(s, c).state != Completed
    ensures var u := S.ClientResponse(s, c, r, added, env);
      && !u.searching && u.launches == s.launches && R.Distinct(u.vec) && Settled(u)
      && u.upstream == s.upstream + (if env.relayOk then [S.Relayed(r)] else [])
  {
    hide R.Inv, R.Base, T.Inv, T.Sound, TakeStatus, Settle, S.NotifyForwarded200OK, CancelRequest;
    VectorFact(s, c);
    TableRight(s, c);
    Transmitted(s, c);
    var t1 := TakeStatus(S.At(s, c), r, S.Queues(s, c, env));
    var s1 := S.Put(s, c, t1);
    R.SuccessSettles(S.At(s, c), r, env.cancelOk(c), S.Queues(s, c, env));
    T.InvSound(t1);
    R.PutKeeps(s, c, t1) by { Split(s); }
    SettledLeaves(s1, c, r, env);
    var s2 := S.NotifyForwarded200OK(s1, env);
    var s3 := S.Put(s2, c, Settle(S.At(s2, c), r));
    var u := if env.relayOk then S.Answer(s3, S.Relayed(r)) else s3;
    assert S.ClientResponse(s, c, r, added, env) == u;
    assert forall d :: d in u.vec ==> S.At(u, d) == S.At(s3, d);
  }

  predicate Settled(s: S.Core) {
    forall d :: d in s.vec ==> S.At(s, d).state != Calling && S.At(s, d).state != NotStarted
  }

  lemma SettledLeaves(s: S.Core, c: Tx, r: Response, env: S.Env)
    requires R.Base(s) && 200 <= r.status <= 299
    ensures var s2 := S.NotifyForwarded200OK(s, env);
      var s3 := S.Put(s2, c, Settle(S.At(s2, c), r));
      && !s3.searching && s3.launches == s.launches && s3.upstream == s.upstream
      && (c in s.vec ==> Settled(s3)) && R.Distinct(s3.vec)
  {
    NotifyLeaves(s, env);
    hide R.Base, S.NotifyForwarded200OK;
    var s2 := S.NotifyForwarded200OK(s, env);
    assert Settle(S.At(s2, c), r).state == S.At(s2, c).state;
  }

  lemma RemovedLeaves(s: S.Core)
    requires R.Distinct(s.vec) && Settled(s)
    ensures var u := S.RemoveTerminated(s, false);
      Settled(u) && u.searching == s.searching && u.launches == s.launches && u.upstream == s.upstream
  {
    R.RemainingFacts(s.vec, s, false);
  }

  lemma NotifyLeaves(s: S.Core, env: S.Env)
    requires R.Base(s)
    ensures var u := S.NotifyForwarded200OK(s, env);
      && !u.searching && u.launches == s.launches && u.upstream == s.upstream && R.Distinct(u.vec) && Settled(u)
  {
    R.CancelKeeps(s, env);
    var s1 := S.CancelOutstanding(s, env);
    hide S.CancelOutstanding, CancelRequest, T.Inv, S.Gone;
    R.RemainingFacts(s1.vec, s1, true);
    forall d | d in s1.vec
      ensures S.At(s1, d).state != Calling && S.At(s1, d).state != NotStarted
    {
      R.SoundFact(s, d);
      R.CancelFacts(S.At(s, d), env.cancelOk(d), S.Queues(s, d, env));
      assert S.At(s.(searching := false), d) == S.At(s, d);
    }
  }
}
