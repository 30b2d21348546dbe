/** What the proxy core does with its client transactions: launching, cancelling, choosing the best
    response (src/sip-proxy-controller.cpp, ProxyCore). */
module ProxySpec {
  import opened Wrappers
  import opened ProxyTransactions

  /** What goes upstream: a response made here, one relayed from a branch, or a relay of the null
      message pointer, which the stack cannot take. */
  datatype Up = Made(status: int) | Relayed(response: Response) | NullMessage

  datatype Config = Config(invite: bool, serial: bool, provisional: bool, redirects: bool)

  /** What the stack answers during one step: how sends of requests go, whether a CANCEL and a response
      can be sent, which order the sort yields for given ranks, and which timer adds are lost. */
  datatype Env = Env(
    sends: ClientTransaction -> Send, cancelOk: ClientTransaction -> bool, relayOk: bool,
    sort: seq<nat> -> seq<nat>, lost: ClientTransaction -> set<Timer>)

  /** `clients` is every transaction ever made, also those that only timers still hold; `vec` is the
      proxy's own vector. `live`: still found by the controller. `launches` and `cancels` record which
      transactions were first transmitted and which were sent a CANCEL. */
  datatype Core = Core(
    config: Config, clients: map<ClientTransaction, Client>, vec: seq<ClientTransaction>,
    searching: bool, canceled: bool, live: bool,
    launches: seq<ClientTransaction>, cancels: seq<ClientTransaction>, upstream: seq<Up>)

  function At(s: Core, c: ClientTransaction): Client {
    if c in s.clients then s.clients[c] else NewClient(0, "", 0)
  }

  function Put(s: Core, c: ClientTransaction, r: Client): Core { s.(clients := s.clients[c := r]) }

  /** What the timer queues have for one branch in this step. */
  function Queues(s: Core, c: ClientTransaction, env: Env): Adds { Adds(s.config.provisional, env.lost(c)) }

  function Answer(s: Core, u: Up): Core { s.(upstream := s.upstream + [u]) }

  // ---------- launching and cancelling ----------

  function Launch(s: Core, c: ClientTransaction, env: Env): (Core, bool) {
    var (r, ok) := ForwardRequest(At(s, c), s.config.invite, Queues(s, c, env), env.sends(c));
    (Put(s, c, r).(launches := s.launches + [c]), ok)
  }

  /** In serial mode the loop stops at the first branch that was sent; the count is of those sent. */
  function StartFrom(s: Core, i: nat, env: Env): (Core, nat)
    decreases |s.vec| - i
  {
    if i >= |s.vec| then (s, 0)
    else if At(s, s.vec[i]).state != NotStarted then StartFrom(s, i + 1, env)
    else
      var (s1, ok) := Launch(s, s.vec[i], env);
      if ok && s.config.serial then (s1, 1)
      else var (s2, n) := StartFrom(s1, i + 1, env); (s2, if ok then n + 1 else n)
  }

  function StartRequests(s: Core, env: Env): (Core, nat) {
    if s.searching then StartFrom(s, 0, env) else (s, 0)
  }

  function CancelOne(s: Core, c: ClientTransaction, env: Env): Core {
    var (r, sent) := CancelRequest(At(s, c), env.cancelOk(c), Queues(s, c, env));
    Put(s, c, r).(cancels := if sent then s.cancels + [c] else s.cancels)
  }

  function CancelFrom(s: Core, i: nat, env: Env): Core
    decreases |s.vec| - i
  {
    if i >= |s.vec| then s else CancelFrom(CancelOne(s, s.vec[i], env), i + 1, env)
  }

  function CancelOutstanding(s: Core, env: Env): Core { CancelFrom(s.(searching := false), 0, env) }

  // ---------- the vector ----------

  predicate Gone(r: Client, alsoNotStarted: bool) {
    r.state == Terminated || (alsoNotStarted && r.state == NotStarted)
  }

  function Remaining(v: seq<ClientTransaction>, s: Core, alsoNotStarted: bool): seq<ClientTransaction> {
    if v == [] then []
    else (if Gone(At(s, v[0]), alsoNotStarted) then [] else [v[0]]) + Remaining(v[1..], s, alsoNotStarted)
  }

  /** A proxy with no transaction left is taken out of the controller's table. */
  function RemoveTerminated(s: Core, alsoNotStarted: bool): Core {
    var v := Remaining(s.vec, s, alsoNotStarted);
    s.(vec := v, live := s.live && v != [])
  }

  predicate Pending(r: Client) { r.state == Calling || r.state == Proceeding }

  predicate Exhausted(s: Core) { forall c :: c in s.vec ==> !Pending(At(s, c)) }

  // ---------- the best response ----------

  predicate Challenges(status: int) {
    status == 401 || status == 407 || status == 415 || status == 420 || status == 484
  }

  /** The comparator given to the sort. */
  predicate BestResponseOrder(c1: Client, c2: Client) {
    if c1.state == Completed && c2.state != Completed then true
    else if c1.state != Completed && c2.state == Completed then false
    else if c1.state != Completed then true
    else if c1.status >= 600 then true
    else if c2.status >= 600 then false
    else if Challenges(c1.status) then true
    else if Challenges(c2.status) then false
    else if 400 <= c1.status <= 499 then true
    else if 400 <= c2.status <= 499 then false
    else if 500 <= c1.status <= 599 then true
    else if 500 <= c2.status <= 599 then false
    else true
  }

  /** The order of RFC 3261, section 16.7, step 6, as a number. */
  function Rank(c: Client): (k: nat)
    ensures k <= 5
  {
    if c.state != Completed then 0
    else if c.status >= 600 then 5
    else if Challenges(c.status) then 4
    else if 400 <= c.status <= 499 then 3
    else if 500 <= c.status <= 599 then 2
    else 1
  }

  function Ranks(v: seq<ClientTransaction>, s: Core): (ks: seq<nat>)
    ensures |ks| == |v|
    ensures forall i :: 0 <= i < |v| ==> ks[i] == Rank(At(s, v[i]))
  {
    if v == [] then [] else [Rank(At(s, v[0]))] + Ranks(v[1..], s)
  }

  predicate Permutes(p: seq<nat>, n: nat) {
    && |p| == n
    && (forall i :: 0 <= i < n ==> p[i] < n)
    && (forall i, j :: 0 <= i < j < n ==> p[i] != p[j])
    && (forall k :: 0 <= k < n ==> k in p)
  }

  /** Any result a sort with that comparator may have: a permutation in which ranks never rise. */
  ghost predicate Sorts(sort: seq<nat> -> seq<nat>) {
    forall ks: seq<nat> ::
      && Permutes(sort(ks), |ks|)
      && forall i, j :: 0 <= i < j < |ks| ==> ks[sort(ks)[i]] >= ks[sort(ks)[j]]
  }

  function Reorder(v: seq<ClientTransaction>, p: seq<nat>): (w: seq<ClientTransaction>)
    ensures Permutes(p, |v|) ==> |w| == |v| && forall i :: 0 <= i < |v| ==> w[i] == v[p[i]]
  {
    if Permutes(p, |v|) then seq(|v|, i requires 0 <= i < |v| => v[p[i]]) else v
  }

  function Sorted(s: Core, env: Env): Core {
    s.(searching := false, vec := Reorder(s.vec, env.sort(Ranks(s.vec, s))))
  }

  function ForwardBest(s: Core, env: Env): Core { SendBest(Sorted(s, env), env.relayOk) }

  /** The first of the sorted branches decides. */
  function SendBest(s: Core, relayOk: bool): Core {
    if s.vec == [] || At(s, s.vec[0]).state != Completed || At(s, s.vec[0]).status == 0 then Answer(s, Made(408))
    else if At(s, s.vec[0]).final.None? then Answer(s, NullMessage)
    else if relayOk then Answer(s, Relayed(At(s, s.vec[0]).final.value))
    else s
  }

  function BestIfExhausted(s: Core, env: Env): Core {
    if s.searching && Exhausted(s) then ForwardBest(s, env) else s
  }

  // ---------- responses from downstream ----------

  function NotifyForwarded200OK(s: Core, env: Env): Core {
    RemoveTerminated(CancelOutstanding(s, env), true)
  }

  function NewClients(s: Core, added: seq<ClientTransaction>): Core
    decreases |added|
  {
    if added == [] then s
    else NewClients(Put(s, added[0], NewClient(added[0].branch, added[0].target, added[0].initialRSeq)), added[1..])
  }

  /** The contacts of a redirect go in after the first branch with this branch's target. */
  function Position(v: seq<ClientTransaction>, target: string): nat {
    if v == [] || v[0].target == target then 0 else 1 + Position(v[1..], target)
  }

  function AddClientTransactions(s: Core, c: ClientTransaction, added: seq<ClientTransaction>): Core {
    var k := Position(s.vec, c.target);
    var k1 := if k < |s.vec| then k + 1 else |s.vec|;
    NewClients(s.(vec := s.vec[..k1] + added + s.vec[k1..]), added)
  }

  /** A response to the request itself, from the state change to the relay. */
  function TakeOwn(s: Core, c: ClientTransaction, r: Response, added: seq<ClientTransaction>, env: Env): Core {
    var s1 := Put(s, c, TakeStatus(At(s, c), r, Queues(s, c, env)));
    var s2 := if 200 <= r.status <= 299 then NotifyForwarded200OK(s1, env) else s1;
    var s3 := Put(s2, c, Settle(At(s2, c), r));
    if 100 < r.status < 300 then
      if env.relayOk then Answer(s3, Relayed(r)) else s3
    else if 300 <= r.status <= 399 && s.config.redirects && r.contacts != [] then
      AddClientTransactions(s3, c, added)
    else s3
  }

  /** One client transaction takes a response that carries its branch. */
  function ClientResponse(s: Core, c: ClientTransaction, r: Response, added: seq<ClientTransaction>, env: Env): Core {
    var t := At(s, c);
    if t.state == Terminated then s
    else if LateForCanceled(t, r) then CancelOne(Put(s, c, SetState(t, Proceeding, Queues(s, c, env))), c, env)
    else if r.cseq != Own || t.sipMethod == Unknown then s
    else if t.state == Completed && r.status >= 200 then s
    else TakeOwn(s, c, r, added, env)
  }

  /** The branch made with the object is replaced when the request is first sent, so that a response
      can only carry the branch of a transaction that was launched. A response to a PRACK is taken by any
      transaction but the one that sent it. */
  predicate Matches(t: Client, r: Response) {
    if r.prack then t.prackBranch != Some(r.branch) else t.transmitCount > 0 && t.branch == r.branch
  }

  function Find(v: seq<ClientTransaction>, s: Core, r: Response): (o: Option<ClientTransaction>)
    ensures o.Some? ==> o.value in v && Matches(At(s, o.value), r)
  {
    if v == [] then None else if Matches(At(s, v[0]), r) then Some(v[0]) else Find(v[1..], s, r)
  }

  function ProcessResponse(s: Core, r: Response, added: seq<ClientTransaction>, env: Env): Core {
    var o := Find(s.vec, s, r);
    var s1 := if o.Some? then ClientResponse(s, o.value, r, added, env) else s;
    if (r.status == 401 || r.status == 407) && r.challenge then
      ForwardBest(RemoveTerminated(s1, true), env)
    else
      var s2 := RemoveTerminated(s1, false);
      BestIfExhausted(if r.status > 200 then StartRequests(s2, env).0 else s2, env)
  }

  // ---------- timers ----------

  /** What a firing timer does to its own transaction, with what goes out for it. */
  function Expire(s: Core, c: ClientTransaction, t: Timer, env: Env): Core {
    var r := At(s, c);
    var s1 := Put(s, c, OnTimer(r, t, Queues(s, c, env), env.sends(c), env.cancelOk(c)));
    match t
    case C =>
      Answer(s1.(cancels := if r.state == Proceeding && env.cancelOk(c) then s.cancels + [c] else s.cancels), Made(408))
    case Provisional => s1.(canceled := true)
    case _ => s1
  }

  function TimerFires(s: Core, c: ClientTransaction, t: Timer, env: Env): Core {
    var s1 := Expire(s, c, t, env);
    match t
    case A => s1
    case E => s1
    case B => BestIfExhausted(RemoveTerminated(s1, false), env)
    case C => BestIfExhausted(RemoveTerminated(s1, false), env)
    case Provisional => BestIfExhausted(StartRequests(RemoveTerminated(s1, false), env).0, env)
    case _ => RemoveTerminated(s1, false)
  }

  // ---------- requests from upstream ----------

  function NewCore(config: Config, targets: seq<ClientTransaction>): Core {
    NewClients(Core(config, map[], targets, true, false, true, [], [], []), targets)
  }

  /** A proxy that cannot send its request anywhere answers 500 and is dropped. */
  function Begin(s: Core, env: Env): Core {
    var (s1, n) := StartRequests(s, env);
    if n == 0 then Answer(s1, Made(500)).(live := false) else s1
  }

  function CancelArrives(s: Core, env: Env): Core {
    CancelOutstanding(Answer(s.(canceled := true), Made(487)), env)
  }

  function FindPending(v: seq<ClientTransaction>, s: Core): (o: Option<ClientTransaction>)
    ensures o.Some? ==> o.value in v && Pending(At(s, o.value))
  {
    if v == [] then None else if Pending(At(s, v[0])) then Some(v[0]) else FindPending(v[1..], s)
  }

  /** An INFO during call set-up goes to the first branch that is calling or proceeding. */
  function InfoArrives(s: Core, env: Env): Core {
    match FindPending(s.vec, s)
    case None => s
    case Some(c) =>
      Put(s, c, ForwardRequest(At(s, c), s.config.invite, Queues(s, c, env), env.sends(c)).0)
  }

  /** The first branch whose latest reliable response has that number. */
  function FindRSeq(v: seq<ClientTransaction>, s: Core, rseq: nat): (o: Option<ClientTransaction>)
    ensures o.Some? ==> o.value in v && At(s, o.value).rseq == rseq
  {
    if v == [] then None else if At(s, v[0]).rseq == rseq then Some(v[0]) else FindRSeq(v[1..], s, rseq)
  }

  /** A PRACK for the response numbered `rseq` by its branch goes out under a new key. */
  function PrackArrives(s: Core, rseq: nat, key: nat): Core {
    match FindRSeq(s.vec, s, rseq)
    case None => s
    case Some(c) => Put(s, c, At(s, c).(prackBranch := Some(key)))
  }
}
