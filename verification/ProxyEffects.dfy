/** What the events of a proxy lead to, read off its branches and its answers before and after: the next
    branch after a failure, the final response when a timer ends the last one
    (src/sip-proxy-controller.cpp, ProxyCore). */
module ProxyEffects {
  import opened Wrappers
  import opened ProxyTransactions
  import S = ProxySpec
  import T = ProxyTimers
  import R = ProxyRuns
  import X = ProxyTheorems
  import B = ProxyBest

  type Tx = ClientTransaction

  // ---------- which branches are started ----------

  predicate Waiting(s: S.Core, c: Tx) { S.At(s, c).state == NotStarted }

  /** The branches that are tried, in order: all that wait, or in serial mode those up to the first for which
      there is a transport. */
  function Tried(v: seq<Tx>, s: S.Core, env: S.Env): (w: seq<Tx>)
    ensures forall c :: c in w ==> c in v && Waiting(s, c)
  {
    if v == [] then []
    else if !Waiting(s, v[0]) then Tried(v[1..], s, env)
    else if s.config.serial && env.sends(v[0]) != NoTransport then [v[0]]
    else [v[0]] + Tried(v[1..], s, env)
  }

  function Launched(s: S.Core, c: Tx, env: S.Env): Client {
    ForwardRequest(S.At(s, c), s.config.invite, S.Queues(s, c, env), env.sends(c)).0
  }

  ghost predicate Started(s: S.Core, tried: seq<Tx>, env: S.Env, u: S.Core) {
    && u == s.(clients := u.clients, launches := s.launches + tried) && s.clients.Keys == u.clients.Keys
    && forall c :: c in s.clients ==> S.At(u, c) == if c in tried then Launched(s, c, env) else S.At(s, c)
  }

  lemma LaunchStarts(s: S.Core, c: Tx, env: S.Env)
    requires c in s.clients
    ensures Started(s, [c], env, S.Launch(s, c, env).0)
    ensures S.Launch(s, c, env).1 <==> env.sends(c) != NoTransport
  {
  }

  lemma SameTried(v: seq<Tx>, s: S.Core, s1: S.Core, env: S.Env)
    requires s1.config == s.config && forall c :: c in v ==> (Waiting(s1, c) <==> Waiting(s, c))
    ensures Tried(v, s1, env) == Tried(v, s, env)
  {
  }

  lemma {:induction false} StartFromStarts(s: S.Core, i: nat, env: S.Env)
    requires i <= |s.vec| && R.Distinct(s.vec) && R.InTable(s.vec, s.clients)
    ensures Started(s, Tried(s.vec[i..], s, env), env, S.StartFrom(s, i, env).0)
    decreases |s.vec| - i
  {
    hide ForwardRequest, S.Launch;
    if i < |s.vec| {
      var c, rest := s.vec[i], s.vec[i + 1..];
      assert s.vec[i..] == [c] + rest;
      if !Waiting(s, c) {
        StartFromStarts(s, i + 1, env);
      } else {
        LaunchStarts(s, c, env);
        var s1 := S.Launch(s, c, env).0;
        if !(S.Launch(s, c, env).1 && s.config.serial) {
          assert c !in rest;
          assert forall d :: d in rest ==> S.At(s1, d) == S.At(s, d);
          SameTried(rest, s, s1, env);
          StartFromStarts(s1, i + 1, env);
          StartedThen(s, c, s1, Tried(rest, s, env), env, S.StartFrom(s1, i + 1, env).0);
        }
      }
    }
  }

  lemma StartedThen(s: S.Core, c: Tx, s1: S.Core, tried: seq<Tx>, env: S.Env, u: S.Core)
    requires c in s.clients && c !in tried && Started(s, [c], env, s1) && Started(s1, tried, env, u)
    ensures Started(s, [c] + tried, env, u)
  {
    hide ForwardRequest;
    assert s.launches + [c] + tried == s.launches + ([c] + tried);
    forall d | d in s.clients
      ensures S.At(u, d) == if d in [c] + tried then Launched(s, d, env) else S.At(s, d)
    {
      assert d in s1.clients;
    }
  }

  /** What is started, exactly, while the search is on. */
  lemma StartsTried(s: S.Core, env: S.Env)
    requires R.Base(s) && s.searching
    ensures Started(s, Tried(s.vec, s, env), env, S.StartRequests(s, env).0)
  {
    assert s.vec[0..] == s.vec;
    StartFromStarts(s, 0, env);
  }

  /** Where a branch that is tried ends up. */
  lemma LaunchedState(s: S.Core, c: Tx, env: S.Env)
    requires R.Base(s) && c in s.clients && Waiting(s, c)
    ensures Launched(s, c, env).state ==
      if env.sends(c) == Failed then Terminated else if s.config.invite then Calling else Trying
  {
    R.SoundFact(s, c);
    R.Transmitted(S.At(s, c), s.config.invite, S.Queues(s, c, env));
    hide T.Sound, Transmit, SetState;
    R.Enters(Transmit(S.At(s, c), s.config.invite, S.Queues(s, c, env)), Terminated, S.Queues(s, c, env));
  }

  /** The timers a branch has once its request is out for the first time: A, B and C for an INVITE, and the
      provisional one if there is a timeout for it, E and F for any other request; the first interval is T1
      (500 ms). Each is queued unless it was lost. */
  lemma LaunchSetsTimers(s: S.Core, c: Tx, env: S.Env)
    requires R.Base(s) && c in s.clients && Waiting(s, c) && env.sends(c) != Failed
    ensures var u := Launched(s, c, env); var q := S.Queues(s, c, env);
      && u.transmitCount == 1 && u.durationA == 500
      && (if s.config.invite then
            && Runs(u.timerA, A in q.lost) && Runs(u.timerB, Timer.B in q.lost) && Runs(u.timerC, C in q.lost)
            && (if s.config.provisional then Runs(u.provisional, Provisional in q.lost) else !u.provisional.held)
          else Runs(u.timerE, E in q.lost) && Runs(u.timerF, F in q.lost))
  {
    R.SoundFact(s, c);
    T.SoundInv(S.At(s, c));
    R.NotSent(S.At(s, c));
    NoTimers(S.At(s, c));
    hide R.Base, T.Sound, T.Inv;
    TimersSet(S.At(s, c), s.config.invite, S.Queues(s, c, env), env.sends(c));
  }

  predicate Runs(h: Handle, lost: bool) { h.held && h.lost == lost && h.queued == if lost then 0 else 1 }

  lemma NoTimers(t: Client)
    requires T.Inv(t) && t.state == NotStarted
    ensures Clear(t.timerA) && Clear(t.timerB) && Clear(t.timerC) && Clear(t.provisional)
    ensures Clear(t.timerE) && Clear(t.timerF)
  {
  }

  predicate Clear(h: Handle) { !h.held && h.queued == 0 }

  lemma TimersSet(t: Client, invite: bool, q: Adds, send: Send)
    requires t.state == NotStarted && t.transmitCount == 0 && send != Failed
    requires Clear(t.timerA) && Clear(t.timerB) && Clear(t.timerC) && Clear(t.provisional)
    requires Clear(t.timerE) && Clear(t.timerF)
    ensures var u := ForwardRequest(t, invite, q, send).0;
      && u.transmitCount == 1 && u.durationA == 500
      && (if invite then
            && Runs(u.timerA, A in q.lost) && Runs(u.timerB, Timer.B in q.lost) && Runs(u.timerC, C in q.lost)
            && (if q.provisional then Runs(u.provisional, Provisional in q.lost) else !u.provisional.held)
          else Runs(u.timerE, E in q.lost) && Runs(u.timerF, F in q.lost))
  {
    var c := t.(transmitCount := 1, sipMethod := if invite then Invite else Other);
    assert ForwardRequest(t, invite, q, send).0 == SetState(c, if invite then Calling else Trying, q);
  }

  // ---------- moving on ----------

  predicate AnyPending(s: S.Core) { exists c :: c in s.vec && S.Pending(S.At(s, c)) }

  predicate AnyWaiting(s: S.Core) { exists c :: c in s.vec && Waiting(s, c) }

  /** The branches started since. */
  function Since(s: S.Core, u: S.Core): seq<Tx>
    requires s.launches <= u.launches
  {
    u.launches[|s.launches|..]
  }

  /** The stop of a serial search: the last branch tried was one that there is a transport for. */
  predicate Stopped(s: S.Core, u: S.Core, env: S.Env)
    requires s.launches <= u.launches
  {
    var tried := Since(s, u);
    s.config.serial && tried != [] && env.sends(tried[|tried| - 1]) != NoTransport
  }

  /** A proxy that has gone on with its search: the search is on exactly if a branch is pending. No branch is left
      waiting unless the search is serial and has stopped at one; so a search for an INVITE that is over
      with branches still waiting has stopped at one whose send failed. */
  predicate MovedOn(s: S.Core, u: S.Core, env: S.Env) {
    && s.launches <= u.launches
    && (u.searching <==> AnyPending(u))
    && (AnyWaiting(u) ==> Stopped(s, u, env))
    && (s.config.serial ==> forall i :: 0 <= i < |Since(s, u)| - 1 ==> env.sends(Since(s, u)[i]) == NoTransport)
    && (AnyWaiting(u) && !u.searching ==>
          var last := Since(s, u)[|Since(s, u)| - 1];
          env.sends(last) == Failed || !s.config.invite)
  }

  lemma {:induction false} TriedStops(v: seq<Tx>, s: S.Core, env: S.Env)
    ensures var w := Tried(v, s, env);
      && (s.config.serial ==> forall i :: 0 <= i < |w| - 1 ==> env.sends(w[i]) == NoTransport)
      && ((exists c :: c in v && Waiting(s, c) && c !in w) ==>
            s.config.serial && w != [] && env.sends(w[|w| - 1]) != NoTransport)
  {
    if v != [] {
      TriedStops(v[1..], s, env);
      assert v == [v[0]] + v[1..];
      var w := Tried(v, s, env);
      if Waiting(s, v[0]) && !(s.config.serial && env.sends(v[0]) != NoTransport) {
        assert w[1..] == Tried(v[1..], s, env);
        assert forall i :: 1 <= i < |w| - 1 ==> w[i] == w[1..][i - 1];
      }
    }
  }

  /** The final response that a search without a pending branch ends with: the proxy's own 408 if no branch has
      completed, the stored response of a top-ranked branch if some branch failed, and one or the other if
      branches have only redirected or been cancelled. */
  ghost predicate BestAnswer(before: seq<S.Up>, u: S.Core, relayOk: bool) {
    && before <= u.upstream && |u.upstream| <= |before| + 1 && (relayOk ==> |u.upstream| == |before| + 1)
    && ((forall c :: c in u.vec ==> S.At(u, c).state != Completed) ==> u.upstream == before + [S.Made(408)])
    && ((exists c :: c in u.vec && B.Failure(S.At(u, c))) ==>
          exists top :: top in u.vec && BestIs(before, u, relayOk, top))
  }

  ghost predicate BestIs(before: seq<S.Up>, u: S.Core, relayOk: bool, top: Tx) {
    && B.Failure(S.At(u, top)) && B.Top(u, top) && S.At(u, top).final.Some?
    && S.At(u, top).final.value.status == S.At(u, top).status
    && u.upstream == before + if relayOk then [S.Relayed(S.At(u, top).final.value)] else []
  }

  /** The same branches, in any order, and nothing else of the state but the end of the search and the answer. */
  ghost predicate SameBranches(s: S.Core, u: S.Core) {
    && u == s.(vec := u.vec, searching := u.searching, upstream := u.upstream)
    && (forall c :: c in u.vec ==> c in s.vec) && (forall c :: c in s.vec ==> c in u.vec)
  }

  lemma BestAnswers(s: S.Core, env: S.Env)
    requires R.Inv(s) && s.searching && S.Sorts(env.sort)
    ensures var u := S.ForwardBest(s, env);
      BestAnswer(s.upstream, u, env.relayOk) && !u.searching && SameBranches(s, u)
  {
    hide R.Inv, S.Sorts, S.ForwardBest, B.OwnAnswer, B.Failure, SameBranches, BestIs;
    BestSame(s, env);
    B.BestCounts(s, env);
    var u := S.ForwardBest(s, env);
    if c :| c in u.vec && B.Failure(S.At(u, c)) {
      BestFound(s, env, u, c);
    }
    if forall c :: c in u.vec ==> S.At(u, c).state != Completed {
      NoneCompleted(s, env);
    }
  }

  lemma BestSame(s: S.Core, env: S.Env)
    requires R.Inv(s) && S.Sorts(env.sort)
    ensures var u := S.ForwardBest(s, env); !u.searching && SameBranches(s, u)
  {
    R.DistinctFact(s);
    hide R.Inv, S.Sorts, S.Sorted, S.SendBest;
    R.SortedFacts(s, env);
    R.SendBestFrame(S.Sorted(s, env), env.relayOk);
  }

  lemma NoneCompleted(s: S.Core, env: S.Env)
    requires var u := S.ForwardBest(s, env); forall c :: c in u.vec ==> S.At(u, c).state != Completed
    ensures S.ForwardBest(s, env).upstream == s.upstream + [S.Made(408)]
  {
    var s1 := S.Sorted(s, env);
    R.SendBestFrame(s1, env.relayOk);
    assert s1.upstream == s.upstream;
    hide S.Sorted, S.SendBest;
    var u := S.ForwardBest(s, env);
    if s1.vec != [] {
      assert u.vec[0] in u.vec && S.At(u, u.vec[0]) == S.At(s1, s1.vec[0]);
    }
    B.NoResponse(s1, env.relayOk);
  }

  lemma BestFound(s: S.Core, env: S.Env, u: S.Core, c: Tx)
    requires R.Inv(s) && s.searching && S.Sorts(env.sort) && u == S.ForwardBest(s, env) && SameBranches(s, u)
    requires c in u.vec && B.Failure(S.At(u, c))
    ensures exists top :: top in u.vec && BestIs(s.upstream, u, env.relayOk, top)
  {
    X.Split(s);
    hide R.Inv, R.Base, S.Sorts, S.ForwardBest, B.Failure, S.Rank;
    var top := B.BestIsForwarded(s, env, c);
    assert BestIs(s.upstream, u, env.relayOk, top);
  }

  /** Answering if nothing is pending. */
  lemma AnswersIfNone(s: S.Core, env: S.Env)
    requires R.Inv(s) && s.searching && S.Sorts(env.sort)
    ensures var u := S.BestIfExhausted(s, env);
      && SameBranches(s, u) && (u.searching <==> AnyPending(u))
      && (if u.searching then u == s else BestAnswer(s.upstream, u, env.relayOk))
  {
    hide R.Inv, S.ForwardBest, S.Sorts, BestAnswer;
    if S.Exhausted(s) {
      BestAnswers(s, env);
    }
  }

  /** Starting what waits and then answering if nothing is pending. */
  lemma GoneOn(s: S.Core, env: S.Env)
    requires R.Inv(s) && s.searching && S.Sorts(env.sort)
    ensures var u := S.BestIfExhausted(S.StartRequests(s, env).0, env);
      && MovedOn(s, u, env) && SameVector(s, u) && u.launches == s.launches + Tried(s.vec, s, env)
      && StatesAfter(s, env, u)
      && (if u.searching then u.upstream == s.upstream else BestAnswer(s.upstream, u, env.relayOk))
  {
    X.Split(s);
    R.StartKeeps(s, env);
    StartsTried(s, env);
    InTable(s);
    hide R.Inv, R.Base, S.StartRequests, S.BestIfExhausted, S.Sorts, BestAnswer, MovedOn, AnyPending, ForwardRequest;
    var s1 := S.StartRequests(s, env).0;
    assert s1.searching && s1.upstream == s.upstream;
    hide Started, SameBranches, Tried, SameVector, Launched;
    AnswersIfNone(s1, env);
    LeftWaiting(s, env, s1, S.BestIfExhausted(s1, env));
    StartedKeeps(s, Tried(s.vec, s, env), env, s1, S.BestIfExhausted(s1, env));
  }

  lemma StartedKeeps(s: S.Core, tried: seq<Tx>, env: S.Env, s1: S.Core, u: S.Core)
    requires Started(s, tried, env, s1) && SameBranches(s1, u) && forall c :: c in tried ==> Waiting(s, c)
    ensures SameVector(s, u) && u.launches == s.launches + tried
    ensures forall c :: c in s.clients ==> S.At(u, c) == if c in tried then Launched(s, c, env) else S.At(s, c)
  {
    hide ForwardRequest;
  }

  /** Only the branches tried have changed. */
  ghost predicate StatesAfter(s: S.Core, env: S.Env, u: S.Core) {
    forall c :: c in s.clients ==>
      S.At(u, c) == if c in Tried(s.vec, s, env) then Launched(s, c, env) else S.At(s, c)
  }

  ghost predicate SameVector(s: S.Core, u: S.Core) {
    && (forall c :: c in u.vec ==> c in s.vec) && (forall c :: c in s.vec ==> c in u.vec)
    && u.clients.Keys == s.clients.Keys
  }

  lemma InTable(s: S.Core)
    requires R.Inv(s)
    ensures R.InTable(s.vec, s.clients)
  {
  }

  lemma LeftWaiting(s: S.Core, env: S.Env, s1: S.Core, u: S.Core)
    requires R.Base(s) && R.InTable(s.vec, s.clients) && Started(s, Tried(s.vec, s, env), env, s1)
    requires SameBranches(s1, u) && (u.searching <==> AnyPending(u))
    ensures MovedOn(s, u, env)
  {
    hide R.Base, ForwardRequest, Tried, R.InTable, AnyPending, AnyWaiting, Started, SameBranches, S.At, MovedOn;
    var tried := Tried(s.vec, s, env);
    TriedStops(s.vec, s, env);
    TriedStates(s, tried, env, s1, u);
    if AnyWaiting(u) {
      StillWaiting(s, tried, env, s1, u);
    }
    Concluded(s, tried, env, u);
  }

  lemma Concluded(s: S.Core, tried: seq<Tx>, env: S.Env, u: S.Core)
    requires u.launches == s.launches + tried && (u.searching <==> AnyPending(u))
    requires s.config.serial ==> forall i :: 0 <= i < |tried| - 1 ==> env.sends(tried[i]) == NoTransport
    requires AnyWaiting(u) ==> s.config.serial && tried != [] && env.sends(tried[|tried| - 1]) != NoTransport
    requires forall c :: c in tried ==> c in u.vec
    requires forall c :: c in tried ==>
      (S.At(u, c).state == if env.sends(c) == Failed then Terminated else if s.config.invite then Calling else Trying)
    ensures MovedOn(s, u, env)
  {
    assert Since(s, u) == tried;
    hide AnyWaiting;
    if AnyWaiting(u) {
      assert tried[|tried| - 1] in tried;
    }
  }

  lemma StillWaiting(s: S.Core, tried: seq<Tx>, env: S.Env, s1: S.Core, u: S.Core)
    requires Started(s, tried, env, s1) && SameBranches(s1, u) && AnyWaiting(u) && R.InTable(s.vec, s.clients)
    requires forall c :: c in tried ==> S.At(s1, c).state != NotStarted
    ensures exists c :: c in s.vec && Waiting(s, c) && c !in tried
  {
    hide ForwardRequest;
    var c :| c in u.vec && Waiting(u, c);
    assert c in s.vec && S.At(s1, c) == S.At(u, c);
  }

  lemma TriedStates(s: S.Core, tried: seq<Tx>, env: S.Env, s1: S.Core, u: S.Core)
    requires R.Base(s) && R.InTable(s.vec, s.clients) && Started(s, tried, env, s1) && SameBranches(s1, u)
    requires forall c :: c in tried ==> c in s.vec && Waiting(s, c)
    ensures u.launches == s.launches + tried
    ensures forall c :: c in tried ==> c in u.vec
    ensures forall c :: c in tried ==>
      S.At(u, c).state == if env.sends(c) == Failed then Terminated else if s.config.invite then Calling else Trying
    ensures forall c :: c in tried ==> S.At(s1, c).state != NotStarted
  {
    hide R.Base, ForwardRequest;
    forall c | c in tried
      ensures c in u.vec && S.At(u, c) == S.At(s1, c)
      ensures S.At(s1, c).state ==
        if env.sends(c) == Failed then Terminated else if s.config.invite then Calling else Trying
    {
      LaunchedState(s, c, env);
      assert S.At(s1, c) == Launched(s, c, env);
    }
  }

  // ---------- a response ----------

  /** A challenge that the proxy keeps, which ends the search. */
  predicate Challenged(r: Response) { (r.status == 401 || r.status == 407) && r.challenge }

  /** After any response the search is on exactly if it was not ended by it and a branch is pending. */
  lemma SearchNeedsPending(s: S.Core, r: Response, added: seq<Tx>, env: S.Env)
    requires R.Inv(s) && X.Enabled(s, X.ResponseArrives(r, added, env)) && S.Sorts(env.sort)
    ensures var u := X.Step(s, X.ResponseArrives(r, added, env));
      (u.searching ==> AnyPending(u)) && (Challenged(r) ==> !u.searching)
  {
    hide R.Inv, S.ClientResponse, S.RemoveTerminated, S.StartRequests, S.Sorts, S.Find, R.Fresh;
    var o := S.Find(s.vec, s, r);
    var s1 := if o.Some? then S.ClientResponse(s, o.value, r, added, env) else s;
    if o.Some? {
      X.VectorFact(s, o.value);
      X.ClientResponseKeeps(s, o.value, r, added, env);
    }
    X.Remove(s1, true);
    X.Remove(s1, false);
    var s2 := S.RemoveTerminated(s1, false);
    R.StartKeeps(s2, env);
    var s3 := if r.status > 200 then S.StartRequests(s2, env).0 else s2;
    hide S.BestIfExhausted, S.ForwardBest, AnyPending;
    if s3.searching {
      AnswersIfNone(s3, env);
    } else {
      Over(s3, env);
    }
    BestSame(S.RemoveTerminated(s1, true), env);
  }

  lemma Over(s: S.Core, env: S.Env)
    requires !s.searching
    ensures S.BestIfExhausted(s, env) == s
  {
  }

  /** A branch that has been sent its request and has not had a final response. */
  predicate Underway(r: Client) { r.state == Calling || r.state == Trying || r.state == Proceeding }

  /** The branch has this response as its final one. */
  predicate Has(t: Client, r: Response) { t.state == Completed && t.status == r.status && t.final == Some(r) }

  /** What a response that is no 2xx leaves before the search goes on: one branch changed at most, and no branch
      that waits; redirect targets come on top. */
  ghost predicate Taken(s: S.Core, r: Response, added: seq<Tx>, c: Tx, u: S.Core) {
    && u == s.(clients := u.clients, vec := u.vec, cancels := u.cancels) && R.Inv(u)
    && s.clients.Keys <= u.clients.Keys
    && (forall d :: d in s.clients && d != c ==> S.At(u, d) == S.At(s, d))
    && (Waiting(u, c) <==> Waiting(s, c))
    && (r.cseq == Own && Underway(S.At(s, c)) ==> Has(S.At(u, c), r))
    && (if Redirects(s, r) then forall d :: d in s.vec ==> d in u.vec else u.vec == s.vec)
  }

  predicate Redirects(s: S.Core, r: Response) {
    300 <= r.status <= 399 && s.config.redirects && r.contacts != []
  }

  lemma FinalFacts(t: Client, r: Response, q: Adds)
    requires r.status >= 300
    ensures Has(Settle(TakeStatus(t, r, q), r), r)
  {
    R.Enters(t.(status := r.status), Completed, q);
  }

  lemma LateFacts(t: Client, ok: bool, q: Adds)
    requires t.state == Completed
    ensures CancelRequest(SetState(t, Proceeding, q), ok, q).0.state == Proceeding
  {
    R.Enters(t, Proceeding, q);
    hide SetState;
  }

  lemma ResponseTaken(s: S.Core, r: Response, added: seq<Tx>, env: S.Env, c: Tx)
    requires R.Inv(s) && c in s.vec && R.Fresh(added, s.clients) && r.status >= 300
    ensures Taken(s, r, added, c, S.ClientResponse(s, c, r, added, env))
  {
    X.VectorFact(s, c);
    X.ClientResponseKeeps(s, c, r, added, env);
    X.Transmitted(s, c);
    Method(s, c);
    hide R.Inv, R.Fresh, TakeStatus, Settle, SetState, CancelRequest, S.CancelOne, S.TakeOwn, Taken;
    var t := S.At(s, c);
    if t.state == Terminated {
      NotTaken(s, r, added, c);
    } else if LateForCanceled(t, r) {
      LateTaken(s, r, added, env, c);
    } else if r.cseq != Own || t.sipMethod == Unknown || t.state == Completed {
      NotTaken(s, r, added, c);
    } else {
      OwnTaken(s, r, added, env, c);
    }
  }

  lemma NotTaken(s: S.Core, r: Response, added: seq<Tx>, c: Tx)
    requires R.Inv(s) && (r.cseq == Own ==> !Underway(S.At(s, c)))
    ensures Taken(s, r, added, c, s)
  {
    hide R.Inv;
  }

  lemma PutTaken(s: S.Core, r: Response, added: seq<Tx>, c: Tx, t: Client, u: S.Core)
    requires c in s.clients && u == S.Put(s, c, t).(cancels := u.cancels) && R.Inv(u)
    requires t.state != NotStarted && S.At(s, c).state != NotStarted
    requires r.cseq == Own && Underway(S.At(s, c)) ==> Has(t, r)
    ensures Taken(s, r, added, c, u)
  {
    hide R.Inv;
  }

  lemma LateTaken(s: S.Core, r: Response, added: seq<Tx>, env: S.Env, c: Tx)
    requires c in s.clients && S.At(s, c).state == Completed
    requires var u := S.CancelOne(S.Put(s, c, SetState(S.At(s, c), Proceeding, S.Queues(s, c, env))), c, env); R.Inv(u)
    ensures
      var u := S.CancelOne(S.Put(s, c, SetState(S.At(s, c), Proceeding, S.Queues(s, c, env))), c, env);
      Taken(s, r, added, c, u)
  {
    var q := S.Queues(s, c, env);
    LateFacts(S.At(s, c), env.cancelOk(c), q);
    hide R.Inv, SetState, CancelRequest, Taken;
    var s1 := S.Put(s, c, SetState(S.At(s, c), Proceeding, q));
    assert S.Queues(s1, c, env) == q && S.At(s1, c) == SetState(S.At(s, c), Proceeding, q);
    var t := CancelRequest(S.At(s1, c), env.cancelOk(c), q).0;
    X.SamePut(s, c, S.At(s1, c), t);
    PutTaken(s, r, added, c, t, S.CancelOne(s1, c, env));
  }

  lemma OwnTaken(s: S.Core, r: Response, added: seq<Tx>, env: S.Env, c: Tx)
    requires R.Inv(S.TakeOwn(s, c, r, added, env)) && R.Fresh(added, s.clients) && r.status >= 300
    requires c in s.clients && S.At(s, c).state != NotStarted
    ensures Taken(s, r, added, c, S.TakeOwn(s, c, r, added, env))
  {
    var t1 := TakeStatus(S.At(s, c), r, S.Queues(s, c, env));
    var t := Settle(t1, r);
    FinalFacts(S.At(s, c), r, S.Queues(s, c, env));
    hide R.Inv, TakeStatus, Settle, S.AddClientTransactions, Taken;
    X.SamePut(s, c, t1, t);
    var s3 := S.Put(s, c, t);
    assert S.TakeOwn(s, c, r, added, env) == if Redirects(s, r) then S.AddClientTransactions(s3, c, added) else s3 by {
      hide Redirects;
      OwnIs(s, r, added, env, c);
    }
    if Redirects(s, r) {
      Added(s3, c, added);
      AddedTaken(s, r, added, c, t, S.AddClientTransactions(s3, c, added));
    } else {
      PutTaken(s, r, added, c, t, s3);
    }
  }

  lemma OwnIs(s: S.Core, r: Response, added: seq<Tx>, env: S.Env, c: Tx)
    requires r.status >= 300
    ensures
      var t1 := TakeStatus(S.At(s, c), r, S.Queues(s, c, env));
      var s3 := S.Put(S.Put(s, c, t1), c, Settle(t1, r));
      S.TakeOwn(s, c, r, added, env) == if Redirects(s, r) then S.AddClientTransactions(s3, c, added) else s3
  {
    hide TakeStatus, Settle, S.AddClientTransactions;
  }

  lemma AddedTaken(s: S.Core, r: Response, added: seq<Tx>, c: Tx, t: Client, u: S.Core)
    requires c in s.clients && R.Inv(u) && R.Fresh(added, s.clients) && Redirects(s, r) && Has(t, r)
    requires S.At(s, c).state != NotStarted
    requires var s3 := S.Put(s, c, t);
      && u == s3.(vec := u.vec, clients := u.clients) && s3.clients.Keys <= u.clients.Keys
      && (forall d :: d in s3.clients && d !in added ==> S.At(u, d) == S.At(s3, d))
      && (forall d :: d in s3.vec ==> d in u.vec)
    ensures Taken(s, r, added, c, u)
  {
    hide R.Inv;
    assert c !in added;
  }

  lemma Method(s: S.Core, c: Tx)
    requires R.Inv(s) && c in s.clients
    ensures S.At(s, c).sipMethod == Unknown <==> S.At(s, c).transmitCount == 0
    ensures Underway(S.At(s, c)) ==> S.At(s, c).sipMethod != Unknown
    ensures Waiting(s, c) ==> S.At(s, c).sipMethod == Unknown
  {
    X.TableRight(s, c);
  }

  lemma Added(s: S.Core, c: Tx, added: seq<Tx>)
    ensures var u := S.AddClientTransactions(s, c, added);
      && u == s.(vec := u.vec, clients := u.clients) && s.clients.Keys <= u.clients.Keys
      && (forall d :: d in s.clients && d !in added ==> S.At(u, d) == S.At(s, d))
      && (forall d :: d in s.vec ==> d in u.vec)
  {
    hide S.Position;
    var k := S.Position(s.vec, c.target);
    var k1 := if k < |s.vec| then k + 1 else |s.vec|;
    NewRecords(s.(vec := s.vec[..k1] + added + s.vec[k1..]), added);
    assert s.vec == s.vec[..k1] + s.vec[k1..];
  }

  lemma {:induction false} NewRecords(s: S.Core, added: seq<Tx>)
    ensures var u := S.NewClients(s, added);
      && u == s.(clients := u.clients) && s.clients.Keys <= u.clients.Keys
      && forall d :: d in s.clients && d !in added ==> S.At(u, d) == S.At(s, d)
    decreases |added|
  {
    if added != [] {
      NewRecords(S.Put(s, added[0], NewClient(added[0].branch, added[0].target, added[0].initialRSeq)), added[1..]);
      assert added == [added[0]] + added[1..];
    }
  }

  // ---------- a failure moves the search on ----------

  lemma {:induction false} RemainingTried(v: seq<Tx>, s: S.Core, s2: S.Core, env: S.Env)
    requires s2.config == s.config && s2.clients == s.clients
    ensures Tried(S.Remaining(v, s, false), s2, env) == Tried(v, s, env)
  {
    if v != [] {
      RemainingTried(v[1..], s, s2, env);
      var rest := S.Remaining(v[1..], s, false);
      assert ([v[0]] + rest)[1..] == rest;
      assert [] + rest == rest;
    }
  }

  lemma {:induction false} TriedSome(v: seq<Tx>, s: S.Core, env: S.Env, c: Tx)
    requires c in v && Waiting(s, c)
    ensures Tried(v, s, env) != []
  {
    if v[0] != c {
      TriedSome(v[1..], s, env, c);
    }
  }

  /** Taking the terminated branches out leaves what is tried as it is. */
  lemma RemovedTried(s: S.Core, env: S.Env)
    requires R.Inv(s)
    ensures var u := S.RemoveTerminated(s, false);
      && R.Inv(u) && u == s.(vec := u.vec, live := u.live) && Tried(u.vec, u, env) == Tried(s.vec, s, env)
      && (forall c :: c in u.vec <==> c in s.vec && S.At(s, c).state != Terminated)
  {
    X.Remove(s, false);
    R.DistinctFact(s);
    hide R.Inv, Tried;
    R.RemainingFacts(s.vec, s, false);
    RemainingTried(s.vec, s, S.RemoveTerminated(s, false), env);
  }

  /** A failure, while the search is on, moves the proxy on. It starts the next branch, in order, or all that
      wait; the search goes on exactly if a branch is then pending, and otherwise a final response goes
      upstream. No branch is left waiting but by a serial search that has stopped at one, and with an INVITE
      by one that is over only if the send failed there. The response is kept with the branch it came from. */
  lemma FailureMovesOn(s: S.Core, r: Response, added: seq<Tx>, env: S.Env)
    requires R.Inv(s) && s.searching && X.Enabled(s, X.ResponseArrives(r, added, env)) && S.Sorts(env.sort)
    requires !Challenged(r) && (r.status >= 300 || (r.status > 200 && S.Find(s.vec, s, r).None?))
    ensures var u := X.Step(s, X.ResponseArrives(r, added, env));
      && MovedOn(s, u, env)
      && (if u.searching then u.upstream == s.upstream else BestAnswer(s.upstream, u, env.relayOk))
      && (AnyWaiting(s) ==> Since(s, u) != [])
      && (!Redirects(s, r) || S.Find(s.vec, s, r).None? ==> Since(s, u) == Tried(s.vec, s, env))
      && (forall c :: S.Find(s.vec, s, r) == Some(c) && r.cseq == Own && Underway(S.At(s, c)) ==>
            c in u.vec && Has(S.At(u, c), r))
  {
    hide R.Inv, S.ClientResponse, S.RemoveTerminated, S.StartRequests, S.BestIfExhausted, S.Sorts, S.Find, R.Fresh,
         MovedOn, BestAnswer, Taken, Tried;
    var o := S.Find(s.vec, s, r);
    if o.Some? {
      ResponseTaken(s, r, added, env, o.value);
      TakenMovesOn(s, r, added, env, o.value, S.ClientResponse(s, o.value, r, added, env));
    } else {
      RemovedTried(s, env);
      GoneOn(S.RemoveTerminated(s, false), env);
      SameMove(s, S.RemoveTerminated(s, false), X.Step(s, X.ResponseArrives(r, added, env)), env);
      if c :| c in s.vec && Waiting(s, c) {
        TriedSome(s.vec, s, env, c);
      }
    }
  }

  lemma SameMove(s: S.Core, s2: S.Core, u: S.Core, env: S.Env)
    requires MovedOn(s2, u, env) && s2.launches == s.launches && s2.config == s.config
    ensures MovedOn(s, u, env)
  {
    assert s.launches <= u.launches ==> Since(s, u) == Since(s2, u);
    hide AnyWaiting, AnyPending;
  }

  lemma TakenMovesOn(s: S.Core, r: Response, added: seq<Tx>, env: S.Env, c: Tx, s1: S.Core)
    requires R.Inv(s) && s.searching && c in s.vec && Taken(s, r, added, c, s1) && S.Sorts(env.sort)
    ensures
      var u := S.BestIfExhausted(S.StartRequests(S.RemoveTerminated(s1, false), env).0, env);
      && MovedOn(s, u, env)
      && (if u.searching then u.upstream == s.upstream else BestAnswer(s.upstream, u, env.relayOk))
      && (AnyWaiting(s) ==> Since(s, u) != [])
      && (!Redirects(s, r) ==> Since(s, u) == Tried(s.vec, s, env))
      && (r.cseq == Own && Underway(S.At(s, c)) ==> c in u.vec && Has(S.At(u, c), r))
  {
    hide R.Inv, S.RemoveTerminated, S.StartRequests, S.BestIfExhausted, S.Sorts, MovedOn, BestAnswer, Tried;
    var s2 := S.RemoveTerminated(s1, false);
    RemovedTried(s1, env);
    GoneOn(s2, env);
    var u := S.BestIfExhausted(S.StartRequests(s2, env).0, env);
    SameMove(s, s2, u, env);
    InTable(s);
    SameWaiting(s, r, added, c, s1);
    if d :| d in s.vec && Waiting(s, d) {
      TriedSome(s1.vec, s1, env, d);
    }
    if !Redirects(s, r) {
      SameTried(s.vec, s, s1, env);
    }
  }

  lemma SameWaiting(s: S.Core, r: Response, added: seq<Tx>, c: Tx, s1: S.Core)
    requires Taken(s, r, added, c, s1) && R.InTable(s.vec, s.clients)
    ensures forall d :: d in s.vec ==> d in s1.vec && (Waiting(s1, d) <==> Waiting(s, d))
  {
    hide R.Inv;
  }

  /** When a failure ends the search although branches still wait, exactly: no other branch is pending, and
      those that are tried, if any, are not pending either, since their send failed or the request is no
      INVITE, for which a branch that is trying does not count as pending. */
  lemma StopsShort(s: S.Core, r: Response, added: seq<Tx>, env: S.Env, c: Tx)
    requires R.Inv(s) && s.searching && X.Enabled(s, X.ResponseArrives(r, added, env)) && S.Sorts(env.sort)
    requires !Challenged(r) && r.status >= 300 && !Redirects(s, r)
    requires S.Find(s.vec, s, r) == Some(c) && r.cseq == Own && Underway(S.At(s, c))
    ensures
      var u := X.Step(s, X.ResponseArrives(r, added, env));
      var tried := Tried(s.vec, s, env);
      !u.searching && AnyWaiting(u) <==>
        && !B.OthersPending(s, c) && (forall d :: d in tried ==> env.sends(d) == Failed || !s.config.invite)
        && (exists d :: d in s.vec && Waiting(s, d) && d !in tried)
  {
    hide R.Inv, S.ClientResponse, S.RemoveTerminated, S.StartRequests, S.BestIfExhausted, S.Sorts, S.Find, R.Fresh,
         Taken, Tried, B.OthersPending, AnyWaiting, AnyPending;
    ResponseTaken(s, r, added, env, c);
    var s1 := S.ClientResponse(s, c, r, added, env);
    var s2 := S.RemoveTerminated(s1, false);
    TakenKeeps(s, r, added, c, s1);
    RemovedTried(s1, env);
    SameTried(s.vec, s, s1, env);
    GoneOn(s2, env);
    hide MovedOn, BestAnswer;
    var u := X.Step(s, X.ResponseArrives(r, added, env));
    InTable(s2);
    AfterStates(s, c, s2, env, u);
    SearchNeedsPending(s, r, added, env);
  }

  lemma TakenKeeps(s: S.Core, r: Response, added: seq<Tx>, c: Tx, s1: S.Core)
    requires R.Inv(s) && Taken(s, r, added, c, s1) && !Redirects(s, r) && c in s.vec
    ensures s1 == s.(clients := s1.clients, cancels := s1.cancels) && R.Inv(s1) && R.InTable(s.vec, s.clients)
    ensures s.clients.Keys <= s1.clients.Keys
    ensures forall d :: d in s.vec ==> (Waiting(s1, d) <==> Waiting(s, d)) && (d != c ==> S.At(s1, d) == S.At(s, d))
    ensures r.cseq == Own && Underway(S.At(s, c)) ==> S.At(s1, c).state == Completed
  {
    InTable(s);
    hide R.Inv;
  }

  /** Which branches wait and which are pending after the search has gone on. */
  lemma AfterStates(s: S.Core, c: Tx, s2: S.Core, env: S.Env, u: S.Core)
    requires R.Inv(s2) && SameVector(s2, u) && StatesAfter(s2, env, u) && s2.config == s.config
    requires Tried(s2.vec, s2, env) == Tried(s.vec, s, env) && R.InTable(s2.vec, s2.clients)
    requires forall d :: d in s2.vec ==> d in s.vec
    requires forall d :: d in s.vec && (Waiting(s, d) || S.Pending(S.At(s, d))) && d != c ==> d in s2.vec
    requires forall d :: d in s2.vec && d != c ==> S.At(s2, d) == S.At(s, d)
    requires !Waiting(s, c) && (c in s2.vec ==> S.At(s2, c).state == Completed)
    ensures var tried := Tried(s.vec, s, env);
      && (AnyWaiting(u) <==> exists d :: d in s.vec && Waiting(s, d) && d !in tried)
      && (AnyPending(u) <==>
            B.OthersPending(s, c) || exists d :: d in tried && env.sends(d) != Failed && s.config.invite)
  {
    var tried := Tried(s.vec, s, env);
    hide R.Inv, R.InTable, StatesAfter, SameVector, Tried, S.At, Waiting, AnyWaiting, AnyPending, B.OthersPending;
    assert forall d :: d in tried ==> d in s2.vec && Waiting(s2, d);
    forall d | d in s2.vec
      ensures StateIs(s, c, tried, env, u, d)
    {
      AfterState(s, c, s2, env, u, d);
    }
    hide StateIs;
    assert forall d :: d in u.vec ==> StateIs(s, c, tried, env, u, d) by { SameElements(s2, u); }
    assert forall d :: d in s.vec && (Waiting(s, d) || S.Pending(S.At(s, d))) && d != c ==> d in u.vec by {
      SameElements(s2, u);
    }
    assert forall d :: d in tried ==> d in u.vec by { SameElements(s2, u); }
    assert forall d :: d in u.vec ==> d in s.vec by { SameElements(s2, u); }
    WaitingLeft(s, c, tried, env, u);
    PendingLeft(s, c, tried, env, u);
  }

  lemma SameElements(s: S.Core, u: S.Core)
    requires SameVector(s, u)
    ensures (forall c :: c in u.vec ==> c in s.vec) && (forall c :: c in s.vec ==> c in u.vec)
  {
  }

  /** What is known of one branch that is left. */
  ghost predicate StateIs(s: S.Core, c: Tx, tried: seq<Tx>, env: S.Env, u: S.Core, d: Tx) {
    if d in tried then
      && Waiting(s, d) && d != c
      && S.At(u, d).state == if env.sends(d) == Failed then Terminated else if s.config.invite then Calling else Trying
    else if d == c then S.At(u, d).state == Completed
    else S.At(u, d) == S.At(s, d)
  }

  lemma AfterState(s: S.Core, c: Tx, s2: S.Core, env: S.Env, u: S.Core, d: Tx)
    requires R.Inv(s2) && StatesAfter(s2, env, u) && s2.config == s.config && R.InTable(s2.vec, s2.clients)
    requires Tried(s2.vec, s2, env) == Tried(s.vec, s, env)
    requires d in s2.vec && (d != c ==> S.At(s2, d) == S.At(s, d))
    requires !Waiting(s, c) && (d == c ==> S.At(s2, c).state == Completed)
    ensures StateIs(s, c, Tried(s.vec, s, env), env, u, d)
  {
    X.Split(s2);
    hide R.Inv, R.Base, Tried, Launched;
    assert S.At(u, d) == if d in Tried(s.vec, s, env) then Launched(s2, d, env) else S.At(s2, d);
    if d in Tried(s.vec, s, env) {
      assert Waiting(s2, d);
      LaunchedState(s2, d, env);
    }
  }

  lemma WaitingLeft(s: S.Core, c: Tx, tried: seq<Tx>, env: S.Env, u: S.Core)
    requires forall d :: d in u.vec ==> d in s.vec && StateIs(s, c, tried, env, u, d)
    requires forall d :: d in s.vec && Waiting(s, d) && d != c ==> d in u.vec
    requires !Waiting(s, c)
    ensures AnyWaiting(u) <==> exists d :: d in s.vec && Waiting(s, d) && d !in tried
  {
    hide S.At;
    if d :| d in s.vec && Waiting(s, d) && d !in tried {
      assert d in u.vec && StateIs(s, c, tried, env, u, d);
    }
    if d :| d in u.vec && Waiting(u, d) {
      assert StateIs(s, c, tried, env, u, d);
    }
  }

  lemma PendingLeft(s: S.Core, c: Tx, tried: seq<Tx>, env: S.Env, u: S.Core)
    requires forall d :: d in u.vec ==> d in s.vec && StateIs(s, c, tried, env, u, d)
    requires forall d :: d in s.vec && S.Pending(S.At(s, d)) && d != c ==> d in u.vec
    requires forall d :: d in tried ==> d in u.vec
    ensures AnyPending(u) <==>
      B.OthersPending(s, c) || exists d :: d in tried && env.sends(d) != Failed && s.config.invite
  {
    hide S.At;
    if d :| d in s.vec && d != c && S.Pending(S.At(s, d)) {
      assert d in u.vec && StateIs(s, c, tried, env, u, d);
    }
    if d :| d in tried && env.sends(d) != Failed && s.config.invite {
      assert d in u.vec && StateIs(s, c, tried, env, u, d);
    }
    if d :| d in u.vec && S.Pending(S.At(u, d)) {
      assert StateIs(s, c, tried, env, u, d);
    }
  }

  // ---------- timers ----------

  /** What a timer that ends its branch leaves before anything else is done: that branch alone has changed. */
  ghost predicate Expired(s: S.Core, c: Tx, u: S.Core, state: TransactionState) {
    && R.Inv(u) && u == s.(clients := u.clients, canceled := u.canceled) && u.clients.Keys == s.clients.Keys
    && S.At(u, c).state == state && S.At(u, c).status == S.At(s, c).status
    && forall d :: d in s.clients && d != c ==> S.At(u, d) == S.At(s, d)
  }

  lemma ExpiredState(t: Client, timer: Timer, q: Adds, send: Send, ok: bool)
    requires timer != A && timer != E && timer != C
    ensures var u := OnTimer(t, timer, q, send, ok);
      u.state == (if timer == Provisional then Completed else Terminated) && u.status == t.status
  {
    R.Enters(Fired(t, timer), if timer == Provisional then Completed else Terminated, q);
  }

  lemma Expires(s: S.Core, c: Tx, t: Timer, env: S.Env)
    requires R.Inv(s) && c in s.clients && S.At(s, c).Queued(t) > 0 && t != A && t != E && t != C
    ensures Expired(s, c, S.Expire(s, c, t, env), if t == Provisional then Completed else Terminated)
  {
    hide R.Inv, OnTimer, S.Expire, Expired;
    X.ExpireKeeps(s, c, t, env);
    var r := OnTimer(S.At(s, c), t, S.Queues(s, c, env), env.sends(c), env.cancelOk(c));
    ExpiredState(S.At(s, c), t, S.Queues(s, c, env), env.sends(c), env.cancelOk(c));
    ExpireIs(s, c, t, env);
    ExpiredPut(s, c, r, S.Expire(s, c, t, env));
  }

  lemma ExpireIs(s: S.Core, c: Tx, t: Timer, env: S.Env)
    requires t != C
    ensures var r := OnTimer(S.At(s, c), t, S.Queues(s, c, env), env.sends(c), env.cancelOk(c));
      S.Expire(s, c, t, env) == S.Put(s, c, r).(canceled := s.canceled || t == Provisional)
  {
    hide OnTimer;
  }

  lemma ExpiredPut(s: S.Core, c: Tx, r: Client, u: S.Core)
    requires c in s.clients && R.Inv(u) && u == S.Put(s, c, r).(canceled := u.canceled) && r.status == S.At(s, c).status
    ensures Expired(s, c, u, r.state)
  {
    hide R.Inv;
  }

  /** The branches that are left when those that have terminated are taken out, as they were. */
  ghost predicate LeftWithout(s: S.Core, c: Tx, u: S.Core) {
    && (forall d :: d in u.vec ==> d in s.vec && d != c && S.At(u, d) == S.At(s, d))
    && (forall d :: d in s.vec && d != c && S.At(s, d).state != Terminated ==> d in u.vec)
  }

  lemma RemovedExpired(s: S.Core, c: Tx, s1: S.Core)
    requires R.Inv(s) && Expired(s, c, s1, Terminated)
    ensures var u := S.RemoveTerminated(s1, false);
      && LeftWithout(s, c, u) && R.Inv(u)
      && u == s1.(vec := u.vec, live := u.live) && (S.Exhausted(u) <==> !B.OthersPending(s, c))
  {
    X.Remove(s1, false);
    R.DistinctFact(s1);
    hide R.Inv, S.Remaining, S.Exhausted, B.OthersPending, R.Distinct, LeftWithout;
    B.InTable(s);
    WithoutExpired(s, c, s1);
    B.PendingOrGone(s, s1, c);
  }

  lemma WithoutExpired(s: S.Core, c: Tx, s1: S.Core)
    requires R.Distinct(s.vec) && (forall d :: d in s.vec ==> d in s.clients) && Expired(s, c, s1, Terminated)
    ensures LeftWithout(s, c, S.RemoveTerminated(s1, false))
  {
    R.RemainingFacts(s1.vec, s1, false);
    hide R.Inv, S.Remaining, R.Distinct;
  }

  /** Timer B takes its branch away and starts no other. It ends the search exactly if no other branch is pending,
      and then a final response goes upstream: nobody is left without an answer. */
  lemma TimerBAnswers(s: S.Core, c: Tx, env: S.Env)
    requires R.Inv(s) && X.Enabled(s, X.TimerFires(c, Timer.B, env)) && S.Sorts(env.sort)
    ensures var u := X.Step(s, X.TimerFires(c, Timer.B, env));
      && LeftWithout(s, c, u) && u.launches == s.launches
      && (u.searching <==> s.searching && B.OthersPending(s, c))
      && (if s.searching && !B.OthersPending(s, c) then BestAnswer(s.upstream, u, env.relayOk)
          else u.upstream == s.upstream)
  {
    Expires(s, c, Timer.B, env);
    var s1 := S.Expire(s, c, Timer.B, env);
    var s2 := S.RemoveTerminated(s1, false);
    RemovedExpired(s, c, s1);
    assert s2.searching == s.searching && s2.upstream == s.upstream && s2.launches == s.launches;
    hide R.Inv, Expired, S.Expire, S.RemoveTerminated, S.ForwardBest, S.Sorts, BestAnswer, B.OthersPending;
    if s.searching && S.Exhausted(s2) {
      BestAnswers(s2, env);
      hide S.Exhausted;
      LeftAnyOrder(s, c, s2, S.ForwardBest(s2, env));
    }
  }

  lemma LeftAnyOrder(s: S.Core, c: Tx, s2: S.Core, u: S.Core)
    requires LeftWithout(s, c, s2) && SameBranches(s2, u)
    ensures LeftWithout(s, c, u)
  {
  }

  /** Timer C takes its branch away too, after a CANCEL if that was proceeding, and starts no other; it ends the
      search exactly if no other branch is pending. What goes upstream is ProxyBest.TimerCFinals. */
  lemma TimerCCancels(s: S.Core, c: Tx, env: S.Env)
    requires R.Inv(s) && X.Enabled(s, X.TimerFires(c, C, env)) && S.Sorts(env.sort)
    ensures var u := X.Step(s, X.TimerFires(c, C, env));
      && LeftWithout(s, c, u) && u.launches == s.launches
      && (u.searching <==> s.searching && B.OthersPending(s, c))
      && u.cancels == s.cancels + (if S.At(s, c).state == Proceeding && env.cancelOk(c) then [c] else [])
  {
    var s1 := S.Expire(s, c, C, env);
    var s2 := B.AfterTimerC(s, c, env);
    B.ExpiredC(s, c, env);
    B.StillRight(s, c, env);
    B.TimerCLeaves(s, c, env);
    CancelRecorded(s, c, env);
    hide R.Inv, S.Expire, S.ForwardBest, S.Sorts, B.OthersPending, S.Exhausted, S.Remaining, S.TimerFires;
    LeftByTimerC(s, c, s1);
    if s.searching && S.Exhausted(s2) {
      BestAnswers(s2, env);
      LeftAnyOrder(s, c, s2, S.ForwardBest(s2, env));
    }
  }

  lemma CancelRecorded(s: S.Core, c: Tx, env: S.Env)
    ensures var u := S.Expire(s, c, C, env);
      && u.launches == s.launches
      && u.cancels == s.cancels + (if S.At(s, c).state == Proceeding && env.cancelOk(c) then [c] else [])
  {
    hide OnTimer;
  }

  lemma LeftByTimerC(s: S.Core, c: Tx, s1: S.Core)
    requires R.Inv(s) && S.At(s1, c).state == Terminated && s1.vec == s.vec
    requires forall d :: d in s.clients && d != c ==> S.At(s1, d) == S.At(s, d)
    ensures LeftWithout(s, c, S.RemoveTerminated(s1, false))
  {
    B.InTable(s);
    hide R.Inv, S.Remaining, R.Distinct;
    R.RemainingFacts(s1.vec, s1, false);
  }

  /** The timers that only take their branch away: D, F and K. */
  lemma TimerOnlyRemoves(s: S.Core, c: Tx, t: Timer, env: S.Env)
    requires R.Inv(s) && X.Enabled(s, X.TimerFires(c, t, env)) && (t == D || t == F || t == K)
    ensures var u := X.Step(s, X.TimerFires(c, t, env));
      && LeftWithout(s, c, u) && u.launches == s.launches && u.searching == s.searching && u.upstream == s.upstream
  {
    Expires(s, c, t, env);
    RemovedExpired(s, c, S.Expire(s, c, t, env));
    hide R.Inv, S.Expire, S.RemoveTerminated, LeftWithout;
  }

  /** The provisional timer gives up on its branch, which completes without a response, and moves the search on
      like a failure. */
  lemma ProvisionalMovesOn(s: S.Core, c: Tx, env: S.Env)
    requires R.Inv(s) && X.Enabled(s, X.TimerFires(c, Provisional, env)) && S.Sorts(env.sort)
    ensures var u := X.Step(s, X.TimerFires(c, Provisional, env));
      && (c in s.vec ==> c in u.vec && S.At(u, c).state == Completed && S.At(u, c).status == 0)
      && (!s.searching ==> !u.searching && u.launches == s.launches && u.upstream == s.upstream)
      && (s.searching ==>
            && MovedOn(s, u, env) && Since(s, u) == Tried(s.vec, s, env)
            && (if u.searching then u.upstream == s.upstream else BestAnswer(s.upstream, u, env.relayOk)))
  {
    Expires(s, c, Provisional, env);
    Launchable(s, c);
    hide R.Inv, S.Expire, S.RemoveTerminated, S.StartRequests, S.BestIfExhausted, S.Sorts, MovedOn, BestAnswer, Tried,
         Expired;
    ProvisionalGone(s, c, env, S.Expire(s, c, Provisional, env));
  }

  lemma ProvisionalGone(s: S.Core, c: Tx, env: S.Env, s1: S.Core)
    requires R.Inv(s) && c in s.clients && !Waiting(s, c) && Expired(s, c, s1, Completed) && S.Sorts(env.sort)
    ensures var u := S.BestIfExhausted(S.StartRequests(S.RemoveTerminated(s1, false), env).0, env);
      && (c in s.vec ==> c in u.vec && S.At(u, c).state == Completed && S.At(u, c).status == S.At(s, c).status)
      && (!s.searching ==> !u.searching && u.launches == s.launches && u.upstream == s.upstream)
      && (s.searching ==>
            && MovedOn(s, u, env) && Since(s, u) == Tried(s.vec, s, env)
            && (if u.searching then u.upstream == s.upstream else BestAnswer(s.upstream, u, env.relayOk)))
  {
    hide R.Inv, S.RemoveTerminated, S.StartRequests, S.BestIfExhausted, S.Sorts, MovedOn, BestAnswer, Tried, Expired;
    var s2 := S.RemoveTerminated(s1, false);
    Prepared(s, c, env, s1);
    if s.searching {
      GoneOn(s2, env);
      var u := S.BestIfExhausted(S.StartRequests(s2, env).0, env);
      StaysCompleted(s2, c, env, u);
      hide SameVector, StatesAfter;
      SameMove(s, s2, u, env);
      assert s.launches + Tried(s.vec, s, env) == u.launches;
    } else {
      NotSearching(s2, env);
    }
  }

  lemma Prepared(s: S.Core, c: Tx, env: S.Env, s1: S.Core)
    requires R.Inv(s) && c in s.clients && !Waiting(s, c) && Expired(s, c, s1, Completed)
    ensures var u := S.RemoveTerminated(s1, false);
      && R.Inv(u) && c in u.clients && !Waiting(u, c) && (c in s.vec ==> c in u.vec)
      && S.At(u, c).state == Completed && S.At(u, c).status == S.At(s, c).status
      && u.searching == s.searching && u.launches == s.launches && u.upstream == s.upstream && u.config == s.config
      && Tried(u.vec, u, env) == Tried(s.vec, s, env)
  {
    hide R.Inv, S.RemoveTerminated, Tried, S.At, Expired;
    ExpiredWaiting(s, c, s1);
    RemovedTried(s1, env);
    SameTried(s.vec, s, s1, env);
    SameRecord(s1, S.RemoveTerminated(s1, false), c);
  }

  lemma SameRecord(s: S.Core, u: S.Core, c: Tx)
    requires u.clients == s.clients
    ensures S.At(u, c) == S.At(s, c)
  {
  }

  lemma ExpiredWaiting(s: S.Core, c: Tx, s1: S.Core)
    requires R.Inv(s) && c in s.clients && !Waiting(s, c) && Expired(s, c, s1, Completed)
    ensures forall d :: d in s.vec ==> (Waiting(s1, d) <==> Waiting(s, d))
    ensures R.Inv(s1) && s1 == s.(clients := s1.clients, canceled := s1.canceled) && c in s1.clients
    ensures S.At(s1, c).state == Completed && S.At(s1, c).status == S.At(s, c).status
  {
    InTable(s);
    hide R.Inv;
  }

  lemma StaysCompleted(s: S.Core, c: Tx, env: S.Env, u: S.Core)
    requires SameVector(s, u) && StatesAfter(s, env, u) && c in s.clients && !Waiting(s, c)
    ensures S.At(u, c) == S.At(s, c) && (c in s.vec ==> c in u.vec)
  {
    hide Launched;
  }

  lemma Launchable(s: S.Core, c: Tx)
    requires R.Inv(s) && c in s.clients && S.At(s, c).Queued(Provisional) > 0
    ensures !Waiting(s, c) && S.At(s, c).status == 0
  {
    X.TableRight(s, c);
    T.TimersFireWhereMeant(S.At(s, c), Provisional);
  }

  lemma NotSearching(s: S.Core, env: S.Env)
    requires !s.searching
    ensures S.BestIfExhausted(S.StartRequests(s, env).0, env) == s
  {
  }

  // ---------- when a search is left with nothing to wait for ----------

  predicate Unfinished(r: Client) { Underway(r) || r.state == NotStarted }

  predicate OthersUnfinished(s: S.Core, c: Tx) { exists d :: d in s.vec && d != c && Unfinished(S.At(s, d)) }

  /** The search is on, and every branch has completed or terminated. */
  predicate Idle(s: S.Core) { s.searching && forall c :: c in s.vec ==> !Unfinished(S.At(s, c)) }

  /** The last unfinished branch ends and the proxy does not look at what is left: a send fails as its request
      is repeated, or as an INFO is passed on to it, or timer D, F or K ends it, which only happens to an
      INVITE after a late response. */
  predicate Strands(s: S.Core, e: X.Event) {
    s.searching &&
    match e
    case TimerFires(c, t, env) =>
      && c in s.vec && Underway(S.At(s, c)) && !OthersUnfinished(s, c)
      && (t == D || t == F || t == K || ((t == A || t == E) && env.sends(c) == Failed))
    case InfoArrives(env) =>
      var o := S.FindPending(s.vec, s);
      o.Some? && env.sends(o.value) == Failed && !OthersUnfinished(s, o.value)
    case _ => false
  }

  lemma BestPending(s: S.Core, env: S.Env)
    ensures !Idle(S.BestIfExhausted(s, env))
  {
    if !(s.searching && S.Exhausted(s)) && s.searching {
      var c :| c in s.vec && S.Pending(S.At(s, c));
      assert Unfinished(S.At(s, c));
    } else if s.searching {
      Ended(s, env);
    }
  }

  lemma Ended(s: S.Core, env: S.Env)
    ensures !S.ForwardBest(s, env).searching
  {
    R.SendBestFrame(S.Sorted(s, env), env.relayOk);
    hide S.SendBest;
  }

  /** One event leaves a search with nothing to wait for exactly if it ends the last unfinished branch in one of
      those ways. Responses, CANCEL and timers B, C and provisional never do. */
  lemma GoesIdle(s: S.Core, e: X.Event)
    requires R.Inv(s) && X.Enabled(s, e) && S.Sorts(e.env.sort) && !Idle(s)
    ensures Idle(X.Step(s, e)) <==> Strands(s, e)
  {
    hide R.Inv, S.Sorts, Idle;
    match e
    case TimerFires(c, t, env) => TimerIdles(s, c, t, env);
    case ResponseArrives(r, added, env) =>
      hide Strands;
      ResponseIdles(s, r, added, env);
      assert !Strands(s, e) by { NotStranded(s, e); }
    case CancelArrives(env) => CancelIdles(s, env);
    case InfoArrives(env) => InfoIdles(s, env);
    case PrackArrives(rseq, key, _) => PrackIdles(s, rseq, key);
  }

  lemma NotStranded(s: S.Core, e: X.Event)
    requires !e.TimerFires? && !e.InfoArrives?
    ensures !Strands(s, e)
  {
  }

  lemma ResponseIdles(s: S.Core, r: Response, added: seq<Tx>, env: S.Env)
    ensures !Idle(S.ProcessResponse(s, r, added, env))
  {
    hide S.ClientResponse, S.RemoveTerminated, S.StartRequests, S.Find, S.ForwardBest, S.BestIfExhausted, Idle;
    var o := S.Find(s.vec, s, r);
    var s1 := if o.Some? then S.ClientResponse(s, o.value, r, added, env) else s;
    var s2 := S.RemoveTerminated(s1, false);
    BestPending(if r.status > 200 then S.StartRequests(s2, env).0 else s2, env);
    Ended(S.RemoveTerminated(s1, true), env);
    assert forall u: S.Core :: !u.searching ==> !Idle(u) by { OverIsNotIdle(); }
  }

  lemma OverIsNotIdle()
    ensures forall u: S.Core :: !u.searching ==> !Idle(u)
  {
  }

  lemma CancelIdles(s: S.Core, env: S.Env)
    requires R.Inv(s)
    ensures !Idle(S.CancelArrives(s, env)) && !Strands(s, X.CancelArrives(env))
  {
    CanceledBase(s);
    R.CancelKeeps(S.Answer(s.(canceled := true), S.Made(487)), env);
    hide R.Inv, S.CancelOutstanding, R.CanceledFrom;
  }

  lemma CanceledBase(s: S.Core)
    requires R.Inv(s)
    ensures R.Inv(S.Answer(s.(canceled := true), S.Made(487)))
  {
    hide R.TimersRight, R.LaunchedOnce;
  }

  lemma PrackIdles(s: S.Core, rseq: nat, key: nat)
    requires !Idle(s)
    ensures !Idle(S.PrackArrives(s, rseq, key))
  {
    var u := S.PrackArrives(s, rseq, key);
    assert forall c :: S.At(u, c).state == S.At(s, c).state || c !in s.clients;
  }

  /** The branch has ended, or is where it was, and nothing else has changed. */
  lemma LastToEnd(s: S.Core, c: Tx, u: S.Core)
    requires !Idle(s) && u.searching == s.searching && u.vec == s.vec && !Waiting(s, c)
    requires forall d :: d in s.vec && d != c ==> S.At(u, d) == S.At(s, d)
    ensures !Unfinished(S.At(u, c)) ==>
      (Idle(u) <==> s.searching && c in s.vec && Underway(S.At(s, c)) && !OthersUnfinished(s, c))
    ensures S.At(u, c).state == S.At(s, c).state ==> !Idle(u)
  {
    hide S.At;
    if s.searching {
      var d :| d in s.vec && Unfinished(S.At(s, d));
      assert d != c ==> S.At(u, d) == S.At(s, d);
    }
  }

  lemma LastToLeave(s: S.Core, c: Tx, u: S.Core)
    requires !Idle(s) && u.searching == s.searching && LeftWithout(s, c, u) && !Waiting(s, c)
    ensures Idle(u) <==> s.searching && c in s.vec && Underway(S.At(s, c)) && !OthersUnfinished(s, c)
  {
    hide S.At;
    if s.searching {
      var d :| d in s.vec && Unfinished(S.At(s, d));
      assert d != c ==> d in u.vec;
    }
  }

  lemma Timed(s: S.Core, c: Tx, t: Timer)
    requires R.Inv(s) && c in s.clients && S.At(s, c).Queued(t) > 0
    ensures !Waiting(s, c)
  {
    X.TableRight(s, c);
  }

  lemma TimerIdles(s: S.Core, c: Tx, t: Timer, env: S.Env)
    requires R.Inv(s) && X.Enabled(s, X.TimerFires(c, t, env)) && !Idle(s)
    ensures Idle(X.Step(s, X.TimerFires(c, t, env))) <==> Strands(s, X.TimerFires(c, t, env))
  {
    Timed(s, c, t);
    hide R.Inv, Idle, OthersUnfinished, S.TimerFires;
    if t == A || t == E {
      ResendIdles(s, c, t, env);
    } else if t == D || t == F || t == K {
      hide LeftWithout;
      TimerOnlyRemoves(s, c, t, env);
      LastToLeave(s, c, X.Step(s, X.TimerFires(c, t, env)));
    } else {
      BestIdles(s, c, t, env);
    }
  }

  lemma BestIdles(s: S.Core, c: Tx, t: Timer, env: S.Env)
    requires t == Timer.B || t == C || t == Provisional
    ensures !Idle(S.TimerFires(s, c, t, env))
  {
    hide Idle, S.Expire, S.RemoveTerminated, S.StartRequests, S.BestIfExhausted;
    var s2 := S.RemoveTerminated(S.Expire(s, c, t, env), false);
    BestPending(s2, env);
    BestPending(S.StartRequests(s2, env).0, env);
  }

  lemma ResendIdles(s: S.Core, c: Tx, t: Timer, env: S.Env)
    requires R.Inv(s) && X.Enabled(s, X.TimerFires(c, t, env)) && !Idle(s) && (t == A || t == E) && !Waiting(s, c)
    ensures Idle(S.TimerFires(s, c, t, env)) <==>
      s.searching && c in s.vec && Underway(S.At(s, c)) && !OthersUnfinished(s, c) && env.sends(c) == Failed
  {
    hide R.Inv, Idle, OthersUnfinished, S.Expire, S.At;
    Resent(s, c, t, env);
    LastToEnd(s, c, S.Expire(s, c, t, env));
  }

  lemma Resent(s: S.Core, c: Tx, t: Timer, env: S.Env)
    requires R.Inv(s) && X.Enabled(s, X.TimerFires(c, t, env)) && (t == A || t == E)
    ensures var u := S.Expire(s, c, t, env);
      && u == s.(clients := u.clients) && (forall d :: d in s.vec && d != c ==> S.At(u, d) == S.At(s, d))
      && S.At(u, c).state == if env.sends(c) == Failed then Terminated else S.At(s, c).state
  {
    Timed(s, c, t);
    ResentState(S.At(s, c), t, S.Queues(s, c, env), env.sends(c), env.cancelOk(c));
    hide R.Inv, OnTimer;
  }

  lemma ResentState(r: Client, t: Timer, q: Adds, send: Send, ok: bool)
    requires (t == A || t == E) && r.state != NotStarted
    ensures OnTimer(r, t, q, send, ok).state == if send == Failed then Terminated else r.state
  {
    var c0 := Fired(r, t).(durationA := 2 * r.durationA, failed := r.failed || send == Failed);
    var c1 := c0.(transmitCount := c0.transmitCount + 1);
    assert Transmit(c0, c0.sipMethod == Invite, q) == c1;
    R.Enters(c1, Terminated, q);
    hide SetState, Transmit;
  }

  lemma InfoIdles(s: S.Core, env: S.Env)
    requires R.Inv(s) && !Idle(s)
    ensures Idle(S.InfoArrives(s, env)) <==> Strands(s, X.InfoArrives(env))
  {
    var o := S.FindPending(s.vec, s);
    hide R.Inv, S.FindPending, Idle, OthersUnfinished, ForwardRequest;
    if o.Some? {
      InfoState(S.At(s, o.value), s.config.invite, S.Queues(s, o.value, env), env.sends(o.value));
      LastToEnd(s, o.value, S.InfoArrives(s, env));
    }
  }

  lemma InfoState(r: Client, invite: bool, q: Adds, send: Send)
    requires S.Pending(r)
    ensures ForwardRequest(r, invite, q, send).0.state == if send == Failed then Terminated else r.state
  {
    R.Enters(r.(transmitCount := r.transmitCount + 1), Terminated, q);
    hide SetState;
  }

  // ---------- runs ----------

  lemma NewIs(config: S.Config, targets: seq<Tx>)
    requires R.Distinct(targets)
    ensures var s := S.NewCore(config, targets);
      && R.Inv(s) && R.InTable(targets, s.clients) && s.config == config && s.vec == targets && s.searching && s.live
      && s.launches == [] && s.upstream == [] && forall c :: c in targets ==> Waiting(s, c)
  {
    var s0 := S.Core(config, map[], targets, true, false, true, [], [], []);
    assert R.TimersRight(s0.clients) && R.LaunchedOnce(s0.launches, s0.clients);
    R.NewClientsKeep(s0, targets);
    var s := S.NewCore(config, targets);
    hide R.TimersRight, R.LaunchedOnce, S.NewClients;
    assert R.Clean(s);
  }

  lemma {:induction false} NoneSent(s: S.Core, i: nat, env: S.Env)
    requires i <= |s.vec| && R.Distinct(s.vec) && R.InTable(s.vec, s.clients)
    ensures S.StartFrom(s, i, env).1 == 0 <==>
      forall c :: c in s.vec[i..] && Waiting(s, c) ==> env.sends(c) == NoTransport
    decreases |s.vec| - i
  {
    hide ForwardRequest, S.Launch;
    if i < |s.vec| {
      var c, rest := s.vec[i], s.vec[i + 1..];
      assert s.vec[i..] == [c] + rest;
      if !Waiting(s, c) {
        NoneSent(s, i + 1, env);
      } else {
        LaunchStarts(s, c, env);
        assert c !in rest;
        assert forall d :: d in rest ==> S.At(S.Launch(s, c, env).0, d) == S.At(s, d);
        NoneSent(S.Launch(s, c, env).0, i + 1, env);
      }
    }
  }

  /** How a proxy begins: the targets tried are launched, in order. It answers 500 and is given up exactly if there
      is a transport for none of them, and nothing else goes upstream. */
  lemma Begins(config: S.Config, targets: seq<Tx>, env: S.Env)
    requires R.Distinct(targets)
    ensures var s, u := S.NewCore(config, targets), S.Begin(S.NewCore(config, targets), env);
      && u.launches == Tried(targets, s, env) && u.vec == targets && u.searching
      && StatesAfter(s, env, u) && R.InTable(targets, s.clients) && (forall c :: c in targets ==> Waiting(s, c))
      && (!u.live <==> forall c :: c in targets ==> env.sends(c) == NoTransport)
      && u.upstream == if u.live then [] else [S.Made(500)]
  {
    var s := S.NewCore(config, targets);
    NewIs(config, targets);
    X.Split(s);
    hide R.Inv, R.Base, S.NewCore, Launched, S.StartFrom, Tried, Started, StatesAfter;
    StartsTried(s, env);
    R.DistinctFact(s);
    NoneSent(s, 0, env);
    assert targets[0..] == targets;
    var s1 := S.StartRequests(s, env).0;
    FromStarted(s, env, s1, S.Begin(s, env));
  }

  lemma FromStarted(s: S.Core, env: S.Env, s1: S.Core, u: S.Core)
    requires Started(s, Tried(s.vec, s, env), env, s1) && s.searching && s.launches == [] && s.upstream == []
    requires u == s1.(live := u.live, upstream := u.upstream)
    ensures u.launches == Tried(s.vec, s, env) && u.vec == s.vec && u.searching && StatesAfter(s, env, u)
    ensures s1.live == s.live && s1.upstream == []
  {
    hide Launched, Tried;
  }

  /** Whether the proxy is left idle from the start: every send failed, of more than one target only if it is not
      serial. */
  lemma BeginsIdle(config: S.Config, targets: seq<Tx>, env: S.Env)
    requires R.Distinct(targets)
    ensures Idle(S.Begin(S.NewCore(config, targets), env)) <==>
      (forall c :: c in targets ==> env.sends(c) == Failed) && (config.serial ==> |targets| <= 1)
  {
    var s := S.NewCore(config, targets);
    NewIs(config, targets);
    X.Split(s);
    Begins(config, targets, env);
    var u := S.Begin(s, env);
    hide R.Inv, R.Base, S.NewCore, S.Begin, Launched, S.At, R.InTable, Tried;
    forall c | c in targets
      ensures Unfinished(S.At(u, c)) <==> c !in Tried(targets, s, env) || env.sends(c) != Failed
    {
      FirstState(s, env, u, c);
    }
    if forall c :: c in targets ==> env.sends(c) == Failed {
      AllFailed(targets, s, env);
    }
  }

  lemma FirstState(s: S.Core, env: S.Env, u: S.Core, c: Tx)
    requires R.Base(s) && c in s.vec && c in s.clients && Waiting(s, c) && StatesAfter(s, env, u)
    ensures Unfinished(S.At(u, c)) <==> c !in Tried(s.vec, s, env) || env.sends(c) != Failed
  {
    LaunchedState(s, c, env);
    hide R.Base, Tried, Launched;
  }

  lemma AllFailed(v: seq<Tx>, s: S.Core, env: S.Env)
    requires R.Distinct(v) && forall c :: c in v ==> Waiting(s, c) && env.sends(c) == Failed
    ensures s.config.serial ==> ((forall c :: c in v ==> c in Tried(v, s, env)) <==> |v| <= 1)
    ensures !s.config.serial ==> forall c :: c in v ==> c in Tried(v, s, env)
  {
    if s.config.serial {
      if |v| > 1 {
        assert v[1] in v && v[1] !in Tried(v, s, env);
      }
    } else {
      TriedStops(v, s, env);
    }
  }

  /** On every run: a proxy that is searching has a branch unfinished, unless it was idle from the start or one
      of the events that strand a search has come since. */
  lemma {:induction false} NeverIdle(start: X.Opening, events: seq<X.Event>, states: seq<S.Core>, k: nat)
    requires X.IsRun(start, events, states) && k <= |events| && Idle(states[k])
    ensures Idle(states[0]) || exists j :: 0 <= j < k && Strands(states[j], events[j])
  {
    hide R.Inv, S.Begin, X.Step, X.Enabled, S.Sorts, Idle, Strands;
    if k > 0 {
      if Idle(states[k - 1]) {
        NeverIdle(start, events, states, k - 1);
      } else {
        X.InvOfRun(start, events, states, k - 1);
        GoesIdle(states[k - 1], events[k - 1]);
      }
    }
  }

  // ---------- CANCEL, repeated requests, provisional responses, challenges ----------

  /** A CANCEL from upstream is answered with 487 and ends the search, and every branch of the vector is
      cancelled as its state asks for. */
  lemma CancelEndsSearch(s: S.Core, env: S.Env, c: Tx)
    requires R.Inv(s) && X.Enabled(s, X.CancelArrives(env)) && c in s.vec
    ensures var u := X.Step(s, X.CancelArrives(env));
      && u.upstream == s.upstream + [S.Made(487)] && !u.searching && u.vec == s.vec && u.launches == s.launches
      && S.At(u, c).state ==
           (match S.At(s, c).state
            case Calling => Completed
            case NotStarted => Terminated
            case state => state)
      && (S.At(s, c).state == Proceeding && env.cancelOk(c) ==> S.At(u, c).canceled && c in u.cancels)
  {
    var s1 := S.Answer(s.(canceled := true), S.Made(487));
    CanceledBase(s);
    X.CancelReachesAll(s1, env, c);
    X.VectorFact(s, c);
    X.TableRight(s, c);
    X.Split(s1);
    R.CancelKeeps(s1, env);
    R.CancelFacts(S.At(s1, c), env.cancelOk(c), S.Queues(s1, c, env));
    hide R.Inv, R.Base, T.Sound, T.Inv, S.CancelOutstanding, CancelRequest;
    assert S.At(s1.(searching := false), c) == S.At(s, c) && S.At(s1, c) == S.At(s, c);
  }

  /** Timers A and E send the request once more and, if it goes out, set themselves again for twice the time. */
  lemma TimerResends(s: S.Core, c: Tx, t: Timer, env: S.Env)
    requires R.Inv(s) && X.Enabled(s, X.TimerFires(c, t, env)) && (t == A || t == E)
    requires S.At(s, c).state != Terminated
    ensures var u := X.Step(s, X.TimerFires(c, t, env)); var before, after := S.At(s, c), S.At(u, c);
      && u == s.(clients := s.clients[c := after]) && after.transmitCount == before.transmitCount + 1
      && after.state == (if env.sends(c) == Failed then Terminated else before.state)
      && (env.sends(c) == Sent ==>
            && after.durationA == 2 * before.durationA && (if t == A then after.timerA.held else after.timerE.held)
            && after.Queued(t) == if t in env.lost(c) then 0 else 1)
  {
    Timed(s, c, t);
    X.TableRight(s, c);
    T.TimersFireWhereMeant(S.At(s, c), t);
    ResentFacts(S.At(s, c), t, S.Queues(s, c, env), env.sends(c), env.cancelOk(c));
    hide R.Inv, OnTimer, T.Sound, T.Inv;
  }

  lemma ResentFacts(r: Client, t: Timer, q: Adds, send: Send, ok: bool)
    requires t == A || t == E
    requires t == A ==> r.sipMethod == Invite && r.state == Calling
    requires t == E ==> r.sipMethod == Other && r.state == Trying
    requires r.Queued(t) == 1
    ensures var u := OnTimer(r, t, q, send, ok);
      && u.transmitCount == r.transmitCount + 1 && u.state == (if send == Failed then Terminated else r.state)
      && (send == Sent ==>
            && u.durationA == 2 * r.durationA && (if t == A then u.timerA.held else u.timerE.held)
            && u.Queued(t) == if t in q.lost then 0 else 1)
  {
    ResentState(r, t, q, send, ok);
    var c0 := Fired(r, t).(durationA := 2 * r.durationA, failed := r.failed || send == Failed);
    var c1 := c0.(transmitCount := c0.transmitCount + 1);
    assert Transmit(c0, c0.sipMethod == Invite, q) == c1;
    R.Enters(c1, Terminated, q);
    hide SetState, Transmit;
  }

  /** A provisional response to a pending branch is relayed, but for 100, and the branch is proceeding; nothing is
      started or ended by it. */
  lemma ProvisionalRelayed(s: S.Core, r: Response, added: seq<Tx>, env: S.Env, c: Tx)
    requires R.Inv(s) && X.Enabled(s, X.ResponseArrives(r, added, env)) && r.status < 200 && r.cseq == Own
    requires S.Find(s.vec, s, r) == Some(c) && S.Pending(S.At(s, c))
    ensures var u := X.Step(s, X.ResponseArrives(r, added, env));
      && c in u.vec && S.At(u, c).state == Proceeding && u.searching == s.searching && u.launches == s.launches
      && u.upstream == s.upstream + (if r.status > 100 && env.relayOk then [S.Relayed(r)] else [])
      && (r.status > 100 && S.At(s, c).sipMethod == Invite ==> S.At(u, c).timerC.held)
      && (forall d :: d in s.vec && d != c && S.At(s, d).state != Terminated ==> d in u.vec && S.At(u, d) == S.At(s, d))
  {
    X.VectorFact(s, c);
    Method(s, c);
    var t := Settle(TakeStatus(S.At(s, c), r, S.Queues(s, c, env)), r);
    RangFacts(S.At(s, c), r, S.Queues(s, c, env));
    hide R.Inv, TakeStatus, Settle, S.Find, R.Fresh, S.RemoveTerminated, S.ClientResponse, X.Step, S.Exhausted,
         S.BestIfExhausted;
    RangTaken(s, c, r, added, env, t);
    RangLeft(s, c, t, S.ClientResponse(s, c, r, added, env));
    ResponseStep(s, r, added, env, c);
    NotExhausted(S.RemoveTerminated(S.ClientResponse(s, c, r, added, env), false), env);
  }

  lemma NotExhausted(s: S.Core, env: S.Env)
    requires !S.Exhausted(s)
    ensures S.BestIfExhausted(s, env) == s
  {
  }

  /** The steps of a response that is no challenge, once its branch is known. */
  lemma ResponseStep(s: S.Core, r: Response, added: seq<Tx>, env: S.Env, c: Tx)
    requires S.Find(s.vec, s, r) == Some(c) && !Challenged(r)
    ensures
      var s2 := S.RemoveTerminated(S.ClientResponse(s, c, r, added, env), false);
      X.Step(s, X.ResponseArrives(r, added, env))
      == S.BestIfExhausted(if r.status > 200 then S.StartRequests(s2, env).0 else s2, env)
  {
    hide S.Find, S.RemoveTerminated, S.ClientResponse, S.BestIfExhausted, S.StartRequests;
  }

  lemma RangLeft(s: S.Core, c: Tx, t: Client, s1: S.Core)
    requires R.Inv(s) && c in s.vec && t.state == Proceeding && s1 == S.Put(s, c, t).(upstream := s1.upstream)
    ensures var u := S.RemoveTerminated(s1, false);
      && u == s1.(vec := u.vec, live := u.live) && c in u.vec && S.At(u, c) == t && !S.Exhausted(u)
      && (forall d :: d in s.vec && d != c && S.At(s, d).state != Terminated ==> d in u.vec && S.At(u, d) == S.At(s, d))
  {
    InTable(s);
    R.DistinctFact(s);
    hide R.Inv, S.Remaining, R.Distinct;
    R.RemainingFacts(s1.vec, s1, false);
    assert S.At(S.RemoveTerminated(s1, false), c) == t;
  }

  lemma RangFacts(t: Client, r: Response, q: Adds)
    requires r.status < 200 && S.Pending(t)
    ensures var u := Settle(TakeStatus(t, r, q), r);
      u.state == Proceeding && (r.status > 100 && t.sipMethod == Invite ==> u.timerC.held)
  {
    R.Enters(t.(status := r.status), Proceeding, q);
    hide SetState;
  }

  lemma RangTaken(s: S.Core, c: Tx, r: Response, added: seq<Tx>, env: S.Env, t: Client)
    requires c in s.clients && r.status < 200 && r.cseq == Own
    requires S.Pending(S.At(s, c)) && S.At(s, c).sipMethod != Unknown
    requires t == Settle(TakeStatus(S.At(s, c), r, S.Queues(s, c, env)), r)
    ensures S.ClientResponse(s, c, r, added, env)
      == S.Put(s, c, t).(upstream := s.upstream + if r.status > 100 && env.relayOk then [S.Relayed(r)] else [])
  {
    X.SamePut(s, c, TakeStatus(S.At(s, c), r, S.Queues(s, c, env)), t);
    hide TakeStatus, Settle;
  }

  /** A challenge that the proxy keeps ends the search: branches that wait are dropped, nothing more is started, and
      the best response goes upstream, for which the challenge itself counts. */
  lemma ChallengeEndsSearch(s: S.Core, r: Response, added: seq<Tx>, env: S.Env)
    requires R.Inv(s) && s.searching && X.Enabled(s, X.ResponseArrives(r, added, env)) && S.Sorts(env.sort)
    requires Challenged(r)
    ensures var u := X.Step(s, X.ResponseArrives(r, added, env));
      && !u.searching && u.launches == s.launches && !AnyWaiting(u) && BestAnswer(s.upstream, u, env.relayOk)
      && (forall c :: S.Find(s.vec, s, r) == Some(c) && r.cseq == Own && Underway(S.At(s, c)) ==>
            c in u.vec && Has(S.At(u, c), r) && B.Failure(S.At(u, c)))
  {
    hide R.Inv, S.ClientResponse, S.RemoveTerminated, S.ForwardBest, S.Sorts, S.Find, R.Fresh, BestAnswer, Taken,
         AnyWaiting;
    var o := S.Find(s.vec, s, r);
    if o.Some? {
      ResponseTaken(s, r, added, env, o.value);
      var s1 := S.ClientResponse(s, o.value, r, added, env);
      TakenChallenge(s, r, added, o.value, s1);
      ChallengeAnswers(s1, env);
    } else {
      ChallengeAnswers(s, env);
    }
  }

  lemma TakenChallenge(s: S.Core, r: Response, added: seq<Tx>, c: Tx, s1: S.Core)
    requires Taken(s, r, added, c, s1) && c in s.vec && r.status >= 400
    ensures R.Inv(s1) && s1.searching == s.searching && s1.launches == s.launches && s1.upstream == s.upstream
    ensures c in s1.vec
    ensures r.cseq == Own && Underway(S.At(s, c)) ==> Has(S.At(s1, c), r) && B.Failure(S.At(s1, c))
  {
    hide R.Inv;
  }

  lemma ChallengeAnswers(s: S.Core, env: S.Env)
    requires R.Inv(s) && s.searching && S.Sorts(env.sort)
    ensures var u := S.ForwardBest(S.RemoveTerminated(s, true), env);
      && !u.searching && u.launches == s.launches && !AnyWaiting(u) && BestAnswer(s.upstream, u, env.relayOk)
      && u.clients == s.clients
      && (forall c :: c in s.vec && S.At(s, c).state == Completed ==> c in u.vec && S.At(u, c) == S.At(s, c))
  {
    var s2 := S.RemoveTerminated(s, true);
    X.Remove(s, true);
    R.DistinctFact(s);
    R.RemainingFacts(s.vec, s, true);
    hide R.Inv, S.Remaining, S.ForwardBest, S.Sorts, BestAnswer, R.Distinct;
    BestAnswers(s2, env);
  }

  /** An INFO is sent to one branch that is pending, if there is any, and changes nothing else. */
  lemma InfoPassedOn(s: S.Core, env: S.Env)
    requires R.Inv(s) && X.Enabled(s, X.InfoArrives(env))
    ensures var u := X.Step(s, X.InfoArrives(env));
      if AnyPending(s) then
        exists c :: c in s.vec && S.Pending(S.At(s, c)) && InfoSent(s, u, c)
      else u == s
  {
    var o := S.FindPending(s.vec, s);
    FoundIfAny(s.vec, s);
    hide R.Inv, S.FindPending, ForwardRequest;
    if o.Some? {
      InfoCount(S.At(s, o.value), s.config.invite, S.Queues(s, o.value, env), env.sends(o.value));
      assert InfoSent(s, S.InfoArrives(s, env), o.value);
    }
  }

  predicate InfoSent(s: S.Core, u: S.Core, c: Tx) {
    && u == s.(clients := s.clients[c := S.At(u, c)])
    && S.At(u, c).transmitCount == S.At(s, c).transmitCount + 1
  }

  lemma {:induction false} FoundIfAny(v: seq<Tx>, s: S.Core)
    ensures S.FindPending(v, s).None? ==> forall c :: c in v ==> !S.Pending(S.At(s, c))
  {
    if v != [] {
      FoundIfAny(v[1..], s);
    }
  }

  lemma InfoCount(r: Client, invite: bool, q: Adds, send: Send)
    requires S.Pending(r)
    ensures ForwardRequest(r, invite, q, send).0.transmitCount == r.transmitCount + 1
  {
    R.Enters(r.(transmitCount := r.transmitCount + 1), Terminated, q);
    hide SetState;
  }

  // ---------- a search that stops short ----------

  lemma {:induction false} NewRecord(s: S.Core, added: seq<Tx>, c: Tx)
    requires c in added || (c in s.clients && S.At(s, c).branch == c.branch)
    ensures S.At(S.NewClients(s, added), c).branch == c.branch
    decreases |added|
  {
    if added != [] {
      assert added == [added[0]] + added[1..];
      NewRecord(S.Put(s, added[0], NewClient(added[0].branch, added[0].target, added[0].initialRSeq)), added[1..], c);
    }
  }

  lemma SameKey(t: Client, state: TransactionState, q: Adds)
    ensures SetState(t, state, q).branch == t.branch
  {
  }

  lemma LaunchedBranch(t: Client, q: Adds)
    requires t.state == NotStarted
    ensures var u := ForwardRequest(t, true, q, Sent).0; u.branch == t.branch && u.transmitCount == t.transmitCount + 1
  {
    var c := t.(transmitCount := t.transmitCount + 1, sipMethod := Invite);
    SameKey(c, Calling, q);
    R.Enters(c, Calling, q);
    hide SetState;
  }

  /** A serial proxy for an INVITE, right after it has begun with three targets. */
  lemma FirstOfThree(a: Tx, b: Tx, c: Tx, env: S.Env)
    requires a != b && b != c && a != c && env.sends(a) == Sent
    ensures
      var config := S.Config(true, true, false, false);
      var u := S.Begin(S.NewCore(config, [a, b, c]), env);
      && R.Inv(u) && u.live && u.searching && u.vec == [a, b, c] && u.launches == [a] && u.upstream == []
      && u.config == config && S.At(u, a).state == Calling && S.At(u, a).branch == a.branch
      && S.At(u, a).transmitCount > 0 && Waiting(u, b) && Waiting(u, c)
  {
    var config := S.Config(true, true, false, false);
    var targets := [a, b, c];
    hide R.Inv, R.Base, R.Clean, S.NewCore, S.Begin, Tried, R.InTable, StatesAfter, Launched, S.At;
    var s := S.NewCore(config, targets);
    X.BeginKeeps(config, targets, env);
    NewIs(config, targets);
    assert a in targets && b in targets && c in targets;
    TriedFirst(s, a, b, c, env);
    Begins(config, targets, env);
    FirstLaunched(config, a, b, c, env);
    FirstStates(s, a, b, c, env, S.Begin(s, env));
    BeginConfig(s, env);
  }

  lemma BeginConfig(s: S.Core, env: S.Env)
    requires R.Inv(s) && s.searching
    ensures S.Begin(s, env).config == s.config
  {
    X.Split(s);
    StartsTried(s, env);
    hide R.Inv, R.Base, Launched, Tried, S.StartRequests;
  }

  lemma FirstLaunched(config: S.Config, a: Tx, b: Tx, c: Tx, env: S.Env)
    requires a != b && b != c && a != c && env.sends(a) == Sent && config.invite
    ensures var s := S.NewCore(config, [a, b, c]);
      var u := Launched(s, a, env); u.state == Calling && u.branch == a.branch && u.transmitCount > 0
  {
    var targets := [a, b, c];
    var s := S.NewCore(config, targets);
    NewIs(config, targets);
    X.Split(s);
    assert a in targets;
    NewRecord(S.Core(config, map[], targets, true, false, true, [], [], []), targets, a);
    LaunchedBranch(S.At(s, a), S.Queues(s, a, env));
    LaunchedState(s, a, env);
    hide R.Inv, R.Base, ForwardRequest;
  }

  lemma FirstStates(s: S.Core, a: Tx, b: Tx, c: Tx, env: S.Env, u: S.Core)
    requires s.vec == [a, b, c] && StatesAfter(s, env, u) && R.InTable(s.vec, s.clients) && Tried(s.vec, s, env) == [a]
    requires a != b && a != c
    ensures S.At(u, a) == Launched(s, a, env) && S.At(u, b) == S.At(s, b) && S.At(u, c) == S.At(s, c)
  {
    hide Launched, Tried;
    assert a in s.vec && b in s.vec && c in s.vec;
  }

  lemma TriedFirst(s: S.Core, a: Tx, b: Tx, c: Tx, env: S.Env)
    requires Waiting(s, a) && s.config.serial && env.sends(a) != NoTransport
    ensures Tried([a, b, c], s, env) == [a]
  {
  }

  /** A serial proxy for an INVITE with three targets: the first answers 486, the send to the second fails, and
      that ends the search although the third was never tried. */
  lemma SerialStopsShort(a: Tx, b: Tx, c: Tx, r: Response, first: S.Env, second: S.Env)
    returns (start: X.Opening, states: seq<S.Core>)
    requires a != b && b != c && a != c && r.status == 486 && r.cseq == Own && !r.prack && r.contacts == []
    requires first.sends(a) == Sent && second.sends(b) == Failed && S.Sorts(second.sort) && second.relayOk
    requires r.branch == a.branch
    ensures X.IsRun(start, [X.ResponseArrives(r, [], second)], states)
    ensures start.targets == [a, b, c] && start.config.serial && start.config.invite
    ensures !states[1].searching && AnyWaiting(states[1]) && states[1].launches == [a, b]
    ensures |states[1].upstream| == 1
  {
    var config := S.Config(true, true, false, false);
    start := X.Opening(config, [a, b, c], first);
    FirstOfThree(a, b, c, first);
    var s := S.Begin(S.NewCore(config, [a, b, c]), first);
    hide R.Inv, S.Begin, S.NewCore, S.Sorts, X.Step, X.IsRun, X.Enabled, AnyWaiting, Waiting, S.At;
    FailsNext(s, a, b, c, r, second);
    OneEvent(start, X.ResponseArrives(r, [], second));
    states := [s, X.Step(s, X.ResponseArrives(r, [], second))];
  }

  lemma OneEvent(start: X.Opening, e: X.Event)
    requires R.Distinct(start.targets) && S.Sorts(e.env.sort)
    requires X.Enabled(S.Begin(S.NewCore(start.config, start.targets), start.env), e)
    ensures
      var s := S.Begin(S.NewCore(start.config, start.targets), start.env);
      X.IsRun(start, [e], [s, X.Step(s, e)])
  {
    hide S.Begin, S.NewCore, S.Sorts, X.Step, X.Enabled;
  }

  lemma FailsNext(s: S.Core, a: Tx, b: Tx, c: Tx, r: Response, env: S.Env)
    requires a != b && b != c && a != c && r.status == 486 && r.cseq == Own && !r.prack && r.contacts == []
    requires env.sends(b) == Failed && S.Sorts(env.sort) && env.relayOk && r.branch == S.At(s, a).branch
    requires R.Inv(s) && s.live && s.searching && s.vec == [a, b, c] && s.launches == [a] && s.upstream == []
    requires s.config.serial && s.config.invite && !s.config.redirects
    requires S.At(s, a).state == Calling && S.At(s, a).transmitCount > 0 && Waiting(s, b) && Waiting(s, c)
    ensures var u := X.Step(s, X.ResponseArrives(r, [], env));
      && X.Enabled(s, X.ResponseArrives(r, [], env))
      && !u.searching && AnyWaiting(u) && u.launches == [a, b] && |u.upstream| == 1
  {
    hide R.Inv, S.Sorts, X.Step, BestAnswer, MovedOn, S.At;
    assert S.Find([a, b, c], s, r) == Some(a);
    TriedSecond(s, a, b, c, env);
    assert !B.OthersPending(s, a);
    assert X.Enabled(s, X.ResponseArrives(r, [], env));
    hide S.Find, B.OthersPending, AnyWaiting, Tried;
    StopsShort(s, r, [], env, a);
    FailureMovesOn(s, r, [], env);
    assert c in s.vec && Waiting(s, c) && c !in [b];
    OneAnswer(s, X.Step(s, X.ResponseArrives(r, [], env)), env);
  }

  lemma TriedSecond(s: S.Core, a: Tx, b: Tx, c: Tx, env: S.Env)
    requires !Waiting(s, a) && Waiting(s, b) && s.config.serial && env.sends(b) != NoTransport
    ensures Tried([a, b, c], s, env) == [b]
  {
    assert [a, b, c][1..] == [b, c];
  }

  lemma OneAnswer(s: S.Core, u: S.Core, env: S.Env)
    requires BestAnswer(s.upstream, u, env.relayOk) && env.relayOk && s.upstream == [] && MovedOn(s, u, env)
    ensures |u.upstream| == 1 && u.launches == s.launches + Since(s, u)
  {
    hide AnyWaiting, AnyPending;
  }

  // ---------- redirects ----------

  /** The targets of a redirect are new branches that wait, in one piece and in order right after the first branch
      with the target that was redirected, so that they are tried next. */
  lemma RedirectAdds(s: S.Core, c: Tx, added: seq<Tx>)
    requires R.Inv(s) && c in s.vec && R.Fresh(added, s.clients)
    ensures var u := S.AddClientTransactions(s, c, added);
      && (forall d :: d in added ==> d in u.vec && Waiting(u, d))
      && exists k :: 0 <= k < |s.vec| && RedirectedAt(s, c, added, u, k)
  {
    hide R.Inv, R.TimersRight, R.LaunchedOnce, S.AddClientTransactions, R.Fresh, RedirectedAt;
    Parts(s);
    var k := FirstTarget(s.vec, c.target);
    AddedAfter(s, c, added, k);
    R.NewClientsKeep(s.(vec := s.vec[..k + 1] + added + s.vec[k + 1..]), added);
    var u := S.AddClientTransactions(s, c, added);
    assert RedirectedAt(s, c, added, u, k);
    AllIn(s, c, added, u, k);
  }

  lemma AddedAfter(s: S.Core, c: Tx, added: seq<Tx>, k: nat)
    requires k < |s.vec| && k == S.Position(s.vec, c.target) && s.vec[k].target == c.target
    requires forall i :: 0 <= i < k ==> s.vec[i].target != c.target
    ensures var u := S.AddClientTransactions(s, c, added);
      && u == S.NewClients(s.(vec := s.vec[..k + 1] + added + s.vec[k + 1..]), added)
      && (u.vec == s.vec[..k + 1] + added + s.vec[k + 1..] ==> RedirectedAt(s, c, added, u, k))
  {
    hide S.NewClients, S.Position;
  }

  lemma AllIn(s: S.Core, c: Tx, added: seq<Tx>, u: S.Core, k: nat)
    requires k < |s.vec| && RedirectedAt(s, c, added, u, k)
    ensures forall d :: d in added ==> d in u.vec
  {
  }

  predicate RedirectedAt(s: S.Core, c: Tx, added: seq<Tx>, u: S.Core, k: nat)
    requires k < |s.vec|
  {
    && s.vec[k].target == c.target && (forall i :: 0 <= i < k ==> s.vec[i].target != c.target)
    && u.vec == s.vec[..k + 1] + added + s.vec[k + 1..]
  }

  lemma Parts(s: S.Core)
    requires R.Inv(s)
    ensures R.TimersRight(s.clients) && R.LaunchedOnce(s.launches, s.clients)
  {
  }

  lemma {:induction false} FirstTarget(v: seq<Tx>, target: string) returns (k: nat)
    requires exists d :: d in v && d.target == target
    ensures k < |v| && k == S.Position(v, target)
    ensures v[k].target == target && forall i :: 0 <= i < k ==> v[i].target != target
  {
    if v[0].target == target {
      k := 0;
    } else {
      var d :| d in v && d.target == target;
      assert d in v[1..];
      k := FirstTarget(v[1..], target);
      k := k + 1;
    }
  }

  /** A redirect that is followed leaves all its targets among the branches, launched or waiting. */
  lemma RedirectFollowed(s: S.Core, r: Response, added: seq<Tx>, env: S.Env, c: Tx)
    requires R.Inv(s) && s.searching && X.Enabled(s, X.ResponseArrives(r, added, env)) && S.Sorts(env.sort)
    requires Redirects(s, r) && S.Find(s.vec, s, r) == Some(c) && r.cseq == Own && Underway(S.At(s, c))
    ensures var u := X.Step(s, X.ResponseArrives(r, added, env));
      && (forall d :: d in added ==> d in u.vec)
      && (!s.config.serial ==> forall d :: d in added ==> d in u.launches)
  {
    X.VectorFact(s, c);
    X.ClientResponseKeeps(s, c, r, added, env);
    Method(s, c);
    var s1 := S.ClientResponse(s, c, r, added, env);
    RedirectTaken(s, r, added, env, c);
    hide R.Inv, S.ClientResponse, S.RemoveTerminated, S.StartRequests, S.BestIfExhausted, S.Sorts, S.Find, R.Fresh,
         MovedOn, BestAnswer, Tried, X.Step, StatesAfter;
    ResponseStep(s, r, added, env, c);
    RemovedTried(s1, env);
    var s2 := S.RemoveTerminated(s1, false);
    GoneOn(s2, env);
    TriedStops(s2.vec, s2, env);
    assert forall d :: d in added ==> d in s2.vec && Waiting(s2, d);
  }

  lemma RedirectTaken(s: S.Core, r: Response, added: seq<Tx>, env: S.Env, c: Tx)
    requires R.Inv(s) && c in s.vec && c in s.clients && R.Fresh(added, s.clients) && Redirects(s, r)
    requires r.cseq == Own && Underway(S.At(s, c)) && S.At(s, c).sipMethod != Unknown
    requires R.Inv(S.ClientResponse(s, c, r, added, env))
    ensures var u := S.ClientResponse(s, c, r, added, env);
      && u.searching == s.searching && u.config == s.config
      && forall d :: d in added ==> d in u.vec && Waiting(u, d)
  {
    X.Split(s);
    R.OtherTaken(s, c, r, env);
    OwnIs(s, r, added, env, c);
    hide R.Inv, R.Base, R.Clean, TakeStatus, Settle, S.AddClientTransactions, Redirects;
    var t1 := TakeStatus(S.At(s, c), r, S.Queues(s, c, env));
    X.SamePut(s, c, t1, Settle(t1, r));
    var s3 := S.Put(s, c, Settle(t1, r));
    Added(s3, c, added);
    RedirectAdds(s3, c, added);
  }
}
