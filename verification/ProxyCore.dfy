/** The proxy object: its vector of client transactions changed in place, one method per handler
    (src/sip-proxy-controller.cpp, ProxyCore). Each method is proved against the function of the same
    meaning in ProxySpec. */
module ProxyCores {
  import opened Wrappers
  import opened ProxyTransactions
  import S = ProxySpec

  class ProxyCore {
    const config: S.Config
    var vec: seq<ClientTransaction>
    var searching: bool
    var canceled: bool
    var live: bool
    var upstream: seq<S.Up>
    ghost var recs: map<ClientTransaction, Client>  // what every transaction made so far holds
    ghost var launches: seq<ClientTransaction>
    ghost var cancels: seq<ClientTransaction>

    ghost function View(): S.Core
      reads this
    {
      S.Core(config, recs, vec, searching, canceled, live, launches, cancels, upstream)
    }

    ghost predicate Valid()
      reads this, recs.Keys
    {
      (forall c :: c in vec ==> c in recs) && forall c :: c in recs ==> recs[c] == c.Rec()
    }

    constructor (config: S.Config, targets: seq<ClientTransaction>)
      requires forall c :: c in targets ==> c.Rec() == NewClient(c.branch, c.target, c.initialRSeq)
      ensures Valid() && View() == S.NewCore(config, targets)
    {
      this.config, vec := config, targets;
      searching, canceled, live, upstream := true, false, true, [];
      launches, cancels := [], [];
      recs := S.NewCore(config, targets).clients;
      new;
      NewClientsRecs(S.Core(config, map[], targets, true, false, true, [], [], []), targets);
    }

    /** The record follows the object after one transaction has changed. */
    ghost method Note(c: ClientTransaction)
      requires c in recs && (forall d :: d in vec ==> d in recs)
      requires forall d :: d in recs && d != c ==> recs[d] == d.Rec()
      modifies this`recs
      ensures Valid() && recs.Keys == old(recs.Keys) && View() == S.Put(old(View()), c, c.Rec())
    {
      recs := recs[c := c.Rec()];
    }

    function Queues(c: ClientTransaction, env: S.Env): Adds { Adds(config.provisional, env.lost(c)) }

    // ---------- launching and cancelling ----------

    method Launch(c: ClientTransaction, env: S.Env) returns (ok: bool)
      requires Valid() && c in recs
      modifies this`recs, this`launches, c
      ensures Valid() && (View(), ok) == S.Launch(old(View()), c, env)
    {
      hide ForwardRequest, ClientTransaction.Rec;
      ok := c.Forward(config.invite, Queues(c, env), env.sends(c));
      Note(c);
      launches := launches + [c];
    }

    /** One turn of the loop over the branches. */
    method StartOne(i: nat, env: S.Env) returns (sent: bool)
      requires Valid() && i < |vec|
      modifies this`recs, this`launches, vec[i]
      ensures Valid() && recs.Keys == old(recs.Keys)
      ensures
        var (r, n) := if sent && config.serial then (View(), 0) else S.StartFrom(View(), i + 1, env);
        S.StartFrom(old(View()), i, env) == (r, if sent then n + 1 else n)
    {
      assert vec[i].state == S.At(View(), vec[i]).state;
      hide S.Launch, ClientTransaction.Rec;
      sent := false;
      if vec[i].state == NotStarted {
        LaunchKeys(View(), vec[i], env);
        sent := Launch(vec[i], env);
      }
    }

    method StartRequests(env: S.Env) returns (count: nat)
      requires Valid()
      modifies this`recs, this`launches, recs.Keys
      ensures Valid() && recs.Keys == old(recs.Keys)
      ensures (View(), count) == S.StartRequests(old(View()), env)
    {
      hide ClientTransaction.Rec;
      count := 0;
      if !searching { return; }
      var i := 0;
      while i < |vec|
        invariant 0 <= i <= |vec| && Valid() && recs.Keys == old(recs.Keys)
        invariant var (r, n) := S.StartFrom(View(), i, env);
          S.StartFrom(old(View()), 0, env) == (r, count + n)
      {
        var sent := StartOne(i, env);
        if sent { count := count + 1; }
        if sent && config.serial { return; }
        i := i + 1;
      }
    }

    method CancelOne(c: ClientTransaction, env: S.Env)
      requires Valid() && c in recs
      modifies this`recs, this`cancels, c
      ensures Valid() && View() == S.CancelOne(old(View()), c, env)
    {
      hide CancelRequest, ClientTransaction.Rec;
      var sent := c.CancelTransaction(env.cancelOk(c), Queues(c, env));
      Note(c);
      if sent { cancels := cancels + [c]; }
    }

    method CancelOutstandingRequests(env: S.Env)
      requires Valid()
      modifies this`recs, this`cancels, this`searching, recs.Keys
      ensures Valid() && recs.Keys == old(recs.Keys)
      ensures View() == S.CancelOutstanding(old(View()), env)
    {
      hide ClientTransaction.Rec, S.CancelOne;
      searching := false;
      var i := 0;
      while i < |vec|
        invariant 0 <= i <= |vec| && Valid() && recs.Keys == old(recs.Keys)
        invariant S.CancelFrom(View(), i, env) == S.CancelOutstanding(old(View()), env)
      {
        ghost var before := View();
        CancelOne(vec[i], env);
        CancelKeys(before, vec[i], env);
        i := i + 1;
      }
    }

    // ---------- the vector ----------

    method Kept(alsoNotStarted: bool) returns (kept: seq<ClientTransaction>)
      requires Valid()
      ensures kept == S.Remaining(vec, View(), alsoNotStarted) && forall c :: c in kept ==> c in recs
    {
      hide S.Remaining, S.Gone, ClientTransaction.Rec;
      kept := [];
      var i := 0;
      while i < |vec|
        invariant 0 <= i <= |vec| && (forall c :: c in kept ==> c in recs)
        invariant kept + S.Remaining(vec[i..], View(), alsoNotStarted) == S.Remaining(vec[0..], View(), alsoNotStarted)
      {
        var c := vec[i];
        assert S.At(View(), c) == c.Rec();
        RemainingStep(vec, i, View(), alsoNotStarted);
        if !S.Gone(c.Rec(), alsoNotStarted) { kept := kept + [c]; }
        i := i + 1;
      }
      NoneRemaining(vec, View(), alsoNotStarted);
    }

    method RemoveTerminated(alsoNotStarted: bool)
      requires Valid()
      modifies this`vec, this`live
      ensures Valid() && View() == S.RemoveTerminated(old(View()), alsoNotStarted)
    {
      hide S.Remaining, ClientTransaction.Rec;
      vec := Kept(alsoNotStarted);
      if |vec| == 0 { live := false; }
    }

    method ExhaustedAllTargets() returns (b: bool)
      requires Valid()
      ensures b <==> S.Exhausted(View())
    {
      var i := 0;
      while i < |vec|
        invariant 0 <= i <= |vec|
        invariant forall j :: 0 <= j < i ==> !S.Pending(S.At(View(), vec[j]))
      {
        assert S.At(View(), vec[i]) == vec[i].Rec();
        if vec[i].state == Calling || vec[i].state == Proceeding { return false; }
        i := i + 1;
      }
      return true;
    }

    // ---------- the best response ----------

    method SortByRank(env: S.Env)
      requires Valid() && !searching
      modifies this`vec
      ensures Valid() && View() == S.Sorted(old(View()), env)
    {
      var ks: seq<nat> := [];
      for i := 0 to |vec|
        invariant |ks| == i && forall j :: 0 <= j < i ==> ks[j] == S.Rank(S.At(View(), vec[j]))
      {
        assert S.At(View(), vec[i]) == vec[i].Rec();
        ks := ks + [S.Rank(vec[i].Rec())];
      }
      assert ks == S.Ranks(vec, View());
      vec := S.Reorder(vec, env.sort(ks));
    }

    method SendBest(relayOk: bool)
      requires Valid()
      modifies this`upstream
      ensures Valid() && View() == S.SendBest(old(View()), relayOk)
    {
      assert |vec| > 0 ==> S.At(View(), vec[0]) == vec[0].Rec();
      if |vec| == 0 || vec[0].state != Completed || vec[0].status == 0 {
        upstream := upstream + [S.Made(408)];
      } else if vec[0].final == None {
        upstream := upstream + [S.NullMessage];
      } else if relayOk {
        upstream := upstream + [S.Relayed(vec[0].final.value)];
      }
    }

    method ForwardBestResponse(env: S.Env)
      requires Valid()
      modifies this`vec, this`searching, this`upstream
      ensures Valid() && View() == S.ForwardBest(old(View()), env)
    {
      hide ClientTransaction.Rec, S.SendBest, S.Sorted;
      SortedStopped(View(), env);
      searching := false;
      SortByRank(env);
      SendBest(env.relayOk);
    }

    method BestIfExhausted(env: S.Env)
      requires Valid()
      modifies this`vec, this`searching, this`upstream
      ensures Valid() && View() == S.BestIfExhausted(old(View()), env)
    {
      hide S.Exhausted, S.ForwardBest;
      var exhausted := ExhaustedAllTargets();
      if searching && exhausted { ForwardBestResponse(env); }
    }

    // ---------- responses from downstream ----------

    method NotifyForwarded200OK(env: S.Env)
      requires Valid()
      modifies this, recs.Keys
      ensures Valid() && recs.Keys == old(recs.Keys) && View() == S.NotifyForwarded200OK(old(View()), env)
    {
      hide S.CancelOutstanding, S.RemoveTerminated;
      CancelOutstandingRequests(env);
      RemoveTerminated(true);
    }

    /** One new transaction for every contact of a redirect; the branches come from the generator of
        unique identifiers. */
    method MakeClients(contacts: seq<string>, branches: seq<nat>, garbage: nat) returns (added: seq<ClientTransaction>)
      requires |branches| == |contacts|
      ensures |added| == |contacts| && fresh(added)
      ensures forall i :: 0 <= i < |added| ==> added[i].target == contacts[i] && added[i].branch == branches[i]
      ensures forall i, j :: 0 <= i < j < |added| ==> added[i] != added[j]
      ensures forall c :: c in added ==> c.Rec() == NewClient(c.branch, c.target, c.initialRSeq)
    {
      added := [];
      for i := 0 to |contacts|
        invariant |added| == i && fresh(added)
        invariant forall j :: 0 <= j < i ==> added[j].target == contacts[j] && added[j].branch == branches[j]
        invariant forall j, k :: 0 <= j < k < i ==> added[j] != added[k]
        invariant forall c :: c in added ==> c.Rec() == NewClient(c.branch, c.target, c.initialRSeq)
      {
        var c := new ClientTransaction(branches[i], contacts[i], garbage);
        added := added + [c];
      }
    }

    method FindTarget(target: string) returns (k: nat)
      ensures k == S.Position(vec, target)
    {
      k := 0;
      while k < |vec| && vec[k].target != target
        invariant 0 <= k <= |vec|
        invariant k + S.Position(vec[k..], target) == S.Position(vec, target)
      {
        assert vec[k..] == [vec[k]] + vec[k + 1..];
        k := k + 1;
      }
      assert k < |vec| ==> vec[k..][0] == vec[k];
    }

    method AddClientTransactions(c: ClientTransaction, added: seq<ClientTransaction>)
      requires Valid() && c in recs && forall d :: d in added ==> d !in recs
      requires forall d :: d in added ==> d.Rec() == NewClient(d.branch, d.target, d.initialRSeq)
      modifies this`vec, this`recs
      ensures Valid() && View() == S.AddClientTransactions(old(View()), c, added)
      ensures recs.Keys == old(recs.Keys) + (set d | d in added)
    {
      hide S.Position, ClientTransaction.Rec;
      var k := FindTarget(c.target);
      var k1 := if k < |vec| then k + 1 else |vec|;
      vec := vec[..k1] + added + vec[k1..];
      ghost var before := View();
      recs := S.NewClients(before, added).clients;
      NewClientsRecs(before, added);
    }

    /** A response to the request itself. The new branches of a redirect are made first, as the code
        does. */
    method TakeOwn(c: ClientTransaction, r: Response, added: seq<ClientTransaction>, env: S.Env)
      requires Valid() && c in recs && forall d :: d in added ==> d !in recs
      requires forall d :: d in added ==> d.Rec() == NewClient(d.branch, d.target, d.initialRSeq)
      modifies this, recs.Keys
      ensures Valid() && recs.Keys <= old(recs.Keys) + (set d | d in added)
      ensures View() == S.TakeOwn(old(View()), c, r, added, env)
    {
      hide TakeStatus, Settle, S.NotifyForwarded200OK, S.AddClientTransactions;
      TakeAndSettle(c, r, env);
      if 100 < r.status < 300 {
        if env.relayOk { upstream := upstream + [S.Relayed(r)]; }
      } else if 300 <= r.status <= 399 && config.redirects && r.contacts != [] {
        AddClientTransactions(c, added);
      }
    }

    method TakeAndSettle(c: ClientTransaction, r: Response, env: S.Env)
      requires Valid() && c in recs
      modifies this, recs.Keys
      ensures Valid() && recs.Keys == old(recs.Keys)
      ensures
        var s1 := S.Put(old(View()), c, TakeStatus(S.At(old(View()), c), r, S.Queues(old(View()), c, env)));
        var s2 := if 200 <= r.status <= 299 then S.NotifyForwarded200OK(s1, env) else s1;
        View() == S.Put(s2, c, Settle(S.At(s2, c), r))
    {
      hide TakeStatus, Settle, S.NotifyForwarded200OK, ClientTransaction.Rec;
      Take(c, r, env);
      if 200 <= r.status <= 299 {
        NotifyForwarded200OK(env);
      }
      Finish(c, r);
    }

    method Take(c: ClientTransaction, r: Response, env: S.Env)
      requires Valid() && c in recs
      modifies this`recs, c
      ensures Valid() && recs.Keys == old(recs.Keys)
      ensures View() == S.Put(old(View()), c, TakeStatus(S.At(old(View()), c), r, S.Queues(old(View()), c, env)))
    {
      hide TakeStatus, ClientTransaction.Rec;
      c.Take(r, Queues(c, env));
      Note(c);
    }

    method Finish(c: ClientTransaction, r: Response)
      requires Valid() && c in recs
      modifies this`recs, c
      ensures Valid() && recs.Keys == old(recs.Keys)
      ensures View() == S.Put(old(View()), c, Settle(S.At(old(View()), c), r))
    {
      hide Settle, ClientTransaction.Rec;
      c.Finish(r);
      Note(c);
    }

    /** A branch that was cancelled before any response came: cancel it now. */
    method CancelLate(c: ClientTransaction, env: S.Env)
      requires Valid() && c in recs
      modifies this`recs, this`cancels, c
      ensures Valid() && recs.Keys == old(recs.Keys)
      ensures var s := old(View());
        View() == S.CancelOne(S.Put(s, c, SetState(S.At(s, c), Proceeding, S.Queues(s, c, env))), c, env)
    {
      hide SetState, CancelRequest, ClientTransaction.Rec;
      c.ChangeState(Proceeding, Queues(c, env));
      Note(c);
      CancelOne(c, env);
    }

    method ClientResponse(c: ClientTransaction, r: Response, added: seq<ClientTransaction>, env: S.Env)
      requires Valid() && c in recs && forall d :: d in added ==> d !in recs
      requires forall d :: d in added ==> d.Rec() == NewClient(d.branch, d.target, d.initialRSeq)
      modifies this, recs.Keys
      ensures Valid() && recs.Keys <= old(recs.Keys) + (set d | d in added)
      ensures View() == S.ClientResponse(old(View()), c, r, added, env)
    {
      hide S.TakeOwn, S.CancelOne, SetState;
      if c.state == Terminated { return; }
      if c.canceled && c.state == Completed && c.status == 0 && r.cseq == Own && c.sipMethod == Invite {
        CancelLate(c, env);
        return;
      }
      if r.cseq != Own || c.sipMethod == Unknown { return; }
      if c.state == Completed && r.status >= 200 { return; }
      TakeOwn(c, r, added, env);
    }

    method FindClient(r: Response) returns (o: Option<ClientTransaction>)
      requires Valid()
      ensures o == S.Find(vec, View(), r)
    {
      var i := 0;
      while i < |vec|
        invariant 0 <= i <= |vec|
        invariant S.Find(vec[i..], View(), r) == S.Find(vec, View(), r)
      {
        assert vec[i..] == [vec[i]] + vec[i + 1..];
        assert S.At(View(), vec[i]) == vec[i].Rec();
        var t := vec[i];
        if r.prack {
          if t.prackBranch != Some(r.branch) { return Some(t); }
        } else if t.transmitCount > 0 && t.branch == r.branch {
          return Some(t);
        }
        i := i + 1;
      }
      return None;
    }

    method ProcessResponse(r: Response, branches: seq<nat>, garbage: nat, env: S.Env)
      returns (handled: bool, ghost added: seq<ClientTransaction>)
      requires Valid() && |branches| == |r.contacts|
      modifies this, recs.Keys
      ensures Valid() && fresh(recs.Keys - old(recs.Keys))
      ensures fresh(added) && |added| == |r.contacts|
      ensures forall i :: 0 <= i < |added| ==> added[i].target == r.contacts[i] && added[i].branch == branches[i]
      ensures handled <==> S.Find(old(vec), old(View()), r).Some?
      ensures View() == S.ProcessResponse(old(View()), r, added, env)
    {
      hide S.ClientResponse, S.RemoveTerminated, S.ForwardBest, S.StartRequests, S.BestIfExhausted, S.Find;
      var clients := MakeClients(r.contacts, branches, garbage);
      added := clients;
      var o := FindClient(r);
      handled := o.Some?;
      if handled { ClientResponse(o.value, r, clients, env); }
      AfterResponse(r, env);
    }

    method AfterResponse(r: Response, env: S.Env)
      requires Valid()
      modifies this, recs.Keys
      ensures Valid() && recs.Keys == old(recs.Keys)
      ensures View() ==
        if (r.status == 401 || r.status == 407) && r.challenge then
          S.ForwardBest(S.RemoveTerminated(old(View()), true), env)
        else
          var s2 := S.RemoveTerminated(old(View()), false);
          S.BestIfExhausted(if r.status > 200 then S.StartRequests(s2, env).0 else s2, env)
    {
      hide S.RemoveTerminated, S.ForwardBest, S.StartRequests, S.BestIfExhausted;
      if (r.status == 401 || r.status == 407) && r.challenge {
        RemoveTerminated(true);
        ForwardBestResponse(env);
      } else {
        RemoveTerminated(false);
        if r.status > 200 {
          var _ := StartRequests(env);
        }
        BestIfExhausted(env);
      }
    }

    // ---------- timers ----------

    method ExpireClient(c: ClientTransaction, t: Timer, env: S.Env) returns (sent: bool)
      requires Valid() && c in recs
      modifies this`recs, c
      ensures Valid() && recs.Keys == old(recs.Keys)
      ensures var r := S.At(old(View()), c);
        && View() == S.Put(old(View()), c, OnTimer(r, t, S.Queues(old(View()), c, env), env.sends(c), env.cancelOk(c)))
        && (sent <==> t == C && r.state == Proceeding && env.cancelOk(c))
    {
      assert c.state == S.At(View(), c).state;
      hide OnTimer, ClientTransaction.Rec;
      sent := c.Expire(t, Queues(c, env), env.sends(c), env.cancelOk(c));
      Note(c);
    }

    method Expire(c: ClientTransaction, t: Timer, env: S.Env)
      requires Valid() && c in recs
      modifies this`recs, this`cancels, this`canceled, this`upstream, c
      ensures Valid() && recs.Keys == old(recs.Keys) && View() == S.Expire(old(View()), c, t, env)
    {
      hide OnTimer, ClientTransaction.Rec, S.Put;
      var sent := ExpireClient(c, t, env);
      if sent { cancels := cancels + [c]; }
      if t == C {
        upstream := upstream + [S.Made(408)];
      } else if t == Provisional {
        canceled := true;
      }
    }

    method TimerFires(c: ClientTransaction, t: Timer, env: S.Env)
      requires Valid() && c in recs
      modifies this, recs.Keys
      ensures Valid() && recs.Keys == old(recs.Keys) && View() == S.TimerFires(old(View()), c, t, env)
    {
      hide S.Expire, S.RemoveTerminated, S.StartRequests, S.BestIfExhausted, ClientTransaction.Rec;
      Expire(c, t, env);
      match t {
        case A =>
        case E =>
        case B => AfterFinalTimer(env);
        case C => AfterFinalTimer(env);
        case Provisional => TryNext(env);
        case D => RemoveTerminated(false);
        case F => RemoveTerminated(false);
        case K => RemoveTerminated(false);
      }
    }

    method AfterFinalTimer(env: S.Env)
      requires Valid()
      modifies this, recs.Keys
      ensures Valid() && recs.Keys == old(recs.Keys)
      ensures View() == S.BestIfExhausted(S.RemoveTerminated(old(View()), false), env)
    {
      hide S.RemoveTerminated, S.BestIfExhausted, ClientTransaction.Rec;
      RemoveTerminated(false);
      BestIfExhausted(env);
    }

    method TryNext(env: S.Env)
      requires Valid()
      modifies this, recs.Keys
      ensures Valid() && recs.Keys == old(recs.Keys)
      ensures View() == S.BestIfExhausted(S.StartRequests(S.RemoveTerminated(old(View()), false), env).0, env)
    {
      hide S.RemoveTerminated, S.StartRequests, S.BestIfExhausted, ClientTransaction.Rec;
      RemoveTerminated(false);
      var _ := StartRequests(env);
      BestIfExhausted(env);
    }

    // ---------- requests from upstream ----------

    method Begin(env: S.Env)
      requires Valid()
      modifies this, recs.Keys
      ensures Valid() && recs.Keys == old(recs.Keys) && View() == S.Begin(old(View()), env)
    {
      hide S.StartRequests;
      var clients := StartRequests(env);
      if clients == 0 {
        upstream := upstream + [S.Made(500)];
        live := false;
      }
    }

    method CancelArrives(env: S.Env)
      requires Valid()
      modifies this, recs.Keys
      ensures Valid() && recs.Keys == old(recs.Keys) && View() == S.CancelArrives(old(View()), env)
    {
      hide S.CancelOutstanding;
      canceled := true;
      upstream := upstream + [S.Made(487)];
      CancelOutstandingRequests(env);
    }

    method FindPending() returns (o: Option<ClientTransaction>)
      requires Valid()
      ensures o == S.FindPending(vec, View())
    {
      var i := 0;
      while i < |vec|
        invariant 0 <= i <= |vec|
        invariant S.FindPending(vec[i..], View()) == S.FindPending(vec, View())
      {
        assert vec[i..] == [vec[i]] + vec[i + 1..];
        assert S.At(View(), vec[i]) == vec[i].Rec();
        if vec[i].state == Calling || vec[i].state == Proceeding { return Some(vec[i]); }
        i := i + 1;
      }
      return None;
    }

    method InfoArrives(env: S.Env)
      requires Valid()
      modifies this`recs, recs.Keys
      ensures Valid() && recs.Keys == old(recs.Keys) && View() == S.InfoArrives(old(View()), env)
    {
      hide ForwardRequest, ClientTransaction.Rec, S.FindPending;
      var o := FindPending();
      if o.Some? {
        var c := o.value;
        var _ := c.Forward(config.invite, Queues(c, env), env.sends(c));
        Note(c);
      }
    }

    method FindRSeq(rseq: nat) returns (o: Option<ClientTransaction>)
      requires Valid()
      ensures o == S.FindRSeq(vec, View(), rseq)
    {
      var i := 0;
      while i < |vec|
        invariant 0 <= i <= |vec|
        invariant S.FindRSeq(vec[i..], View(), rseq) == S.FindRSeq(vec, View(), rseq)
      {
        assert vec[i..] == [vec[i]] + vec[i + 1..];
        assert S.At(View(), vec[i]) == vec[i].Rec();
        if vec[i].rseq == rseq { return Some(vec[i]); }
        i := i + 1;
      }
      return None;
    }

    /** forwardPrack, as far as the branches go. */
    method PrackArrives(rseq: nat, key: nat)
      requires Valid()
      modifies this`recs, recs.Keys
      ensures Valid() && recs.Keys == old(recs.Keys) && View() == S.PrackArrives(old(View()), rseq, key)
    {
      hide ClientTransaction.Rec, S.FindRSeq;
      var o := FindRSeq(rseq);
      if o.Some? {
        assert S.At(View(), o.value) == o.value.Rec();
        o.value.NotePrack(key);
        Note(o.value);
      }
    }
  }

  // ---------- what the specification leaves as it is ----------

  lemma LaunchKeys(s: S.Core, c: ClientTransaction, env: S.Env)
    requires c in s.clients
    ensures S.Launch(s, c, env).0.clients.Keys == s.clients.Keys && S.Launch(s, c, env).0.vec == s.vec
  {
  }

  lemma CancelKeys(s: S.Core, c: ClientTransaction, env: S.Env)
    requires c in s.clients
    ensures S.CancelOne(s, c, env).clients.Keys == s.clients.Keys && S.CancelOne(s, c, env).vec == s.vec
  {
  }

  lemma RemainingStep(v: seq<ClientTransaction>, i: nat, s: S.Core, also: bool)
    requires i < |v|
    ensures S.Remaining(v[i..], s, also) ==
            (if S.Gone(S.At(s, v[i]), also) then [] else [v[i]]) + S.Remaining(v[i + 1..], s, also)
  {
    assert v[i..][1..] == v[i + 1..];
  }

  lemma NoneRemaining(v: seq<ClientTransaction>, s: S.Core, also: bool)
    ensures S.Remaining(v[|v|..], s, also) == [] && v[0..] == v
  {
  }

  lemma SortedStopped(s: S.Core, env: S.Env)
    ensures S.Sorted(s.(searching := false), env) == S.Sorted(s, env)
  {
    RanksSame(s.vec, s, s.(searching := false));
  }

  lemma {:induction false} RanksSame(v: seq<ClientTransaction>, s: S.Core, r: S.Core)
    requires r.clients == s.clients
    ensures S.Ranks(v, r) == S.Ranks(v, s)
  {
    if v != [] {
      RanksSame(v[1..], s, r);
    }
  }

  lemma {:induction false} NewClientsRecs(s: S.Core, added: seq<ClientTransaction>)
    ensures var r := S.NewClients(s, added);
      && r == s.(clients := r.clients) && r.clients.Keys == s.clients.Keys + (set d | d in added)
      && (forall d :: d in s.clients && d !in added ==> r.clients[d] == s.clients[d])
      && (forall d :: d in added ==> r.clients[d] == NewClient(d.branch, d.target, d.initialRSeq))
    decreases |added|
  {
    if added != [] {
      var d := added[0];
      assert added == [d] + added[1..];
      NewClientsRecs(S.Put(s, d, NewClient(d.branch, d.target, d.initialRSeq)), added[1..]);
    }
  }
}
