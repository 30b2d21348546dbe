/** Requests that wait for an application to decide about them: one table by transaction id, one by SIP
    identifier, and a timer each (src/pending-request-controller.cpp, src/pending-request-controller.hpp,
    and the guard in src/controller.cpp). */
module PendingSpec {
  import opened Wrappers
  import opened TimerSpec

  type Txn = nat    // made by the server, unique
  type SipId = nat  // Call-ID, method, CSeq and branch

  const CLIENT_TIMEOUT: int := 64000

  datatype Request = Request(txn: Txn, sip: SipId, when: int)

  /** Its timer entry calls back with the transaction id. */
  function Entry(r: Request): Item { Item(r.txn, r.when) }

  /** `queue` is the timer queue. `arrived` and `left` are every request that was ever added and that
      was ever found and removed. */
  datatype State = State(byTxn: map<Txn, Request>, bySip: map<SipId, Request>, queue: seq<Item>, clock: int,
                         arrived: set<Txn>, left: multiset<Txn>)

  const EMPTY := State(map[], map[], [], 0, {}, multiset{})

  predicate IsRetransmission(s: State, sip: SipId) { sip in s.bySip }

  /** Inserting does not replace an entry that has the same key. */
  function Add(s: State, txn: Txn, sip: SipId, now: int): State {
    var r := Request(txn, sip, now + CLIENT_TIMEOUT);
    s.(byTxn := if txn in s.byTxn then s.byTxn else s.byTxn[txn := r],
       bySip := if sip in s.bySip then s.bySip else s.bySip[sip := r],
       queue := Added(s.queue, Entry(r)), clock := now, arrived := s.arrived + {txn})
  }

  /** Removing an entry that is not in the queue does nothing. */
  function Dropped(q: seq<Item>, e: Item): seq<Item> {
    if q == [] then [] else if q[0] == e then q[1..] else [q[0]] + Dropped(q[1..], e)
  }

  function FindAndRemove(s: State, txn: Txn, timeout: bool): State {
    if txn !in s.byTxn then s else
    var r := s.byTxn[txn];
    s.(byTxn := s.byTxn - {txn}, bySip := s.bySip - {r.sip},
       queue := if timeout then s.queue else Dropped(s.queue, Entry(r)), left := s.left + multiset{txn})
  }

  /** The assertion in FindAndRemove: what is in one table is in the other. */
  predicate AssertHolds(s: State, txn: Txn) { txn in s.byTxn ==> s.byTxn[txn].sip in s.bySip }

  /** The outcome of a new request: a status to reject it with, or 0 once it is waiting. */
  function ProcessNewRequest(s: State, inviteWithTag: bool, routed: bool, client: bool,
                             txn: Txn, sip: SipId, now: int): (State, nat)
  {
    if inviteWithTag then (s, 481)
    else if !routed && !client then (s, 503)
    else (Add(s, txn, sip, now), 0)
  }

  function Wake(s: State, now: int): State {
    var due := Due(s.queue, now);
    var s1 := s.(queue := AfterWake(s.queue, now), clock := now);
    if due == [] then s1 else FindAndRemove(s1, due[0].id, true)
  }
}

module PendingRequests {
  import opened PendingSpec
  import opened TimerSpec

  class PendingRequestController {
    var byTxn: map<Txn, Request>
    var bySip: map<SipId, Request>
    var queue: seq<Item>
    ghost var clock: int
    ghost var arrived: set<Txn>
    ghost var left: multiset<Txn>

    ghost function View(): State
      reads this
    {
      State(byTxn, bySip, queue, clock, arrived, left)
    }

    constructor ()
      ensures View() == EMPTY
    {
      byTxn, bySip, queue := map[], map[], [];
      clock, arrived, left := 0, {}, multiset{};
    }

    method Add(txn: Txn, sip: SipId, now: int)
      modifies this
      ensures View() == PendingSpec.Add(old(View()), txn, sip, now)
    {
      var r := Request(txn, sip, now + CLIENT_TIMEOUT);
      queue := Added(queue, Entry(r));
      if sip !in bySip { bySip := bySip[sip := r]; }
      if txn !in byTxn { byTxn := byTxn[txn := r]; }
      clock, arrived := now, arrived + {txn};
    }

    method FindAndRemove(txn: Txn, timeout: bool) returns (found: bool)
      requires AssertHolds(View(), txn)
      modifies this
      ensures View() == PendingSpec.FindAndRemove(old(View()), txn, timeout) && (found <==> txn in old(byTxn))
    {
      if txn !in byTxn { return false; }
      var r := byTxn[txn];
      byTxn := byTxn - {txn};
      bySip := bySip - {r.sip};
      if !timeout { RemoveTimer(Entry(r)); }
      left := left + multiset{txn};
      return true;
    }

    method RemoveTimer(e: Item)
      modifies this`queue
      ensures queue == Dropped(old(queue), e)
    {
      var i := 0;
      while i < |queue| && queue[i] != e
        invariant 0 <= i <= |queue|
        invariant Dropped(queue, e) == queue[..i] + Dropped(queue[i..], e)
      {
        assert queue[i..][1..] == queue[i + 1..];
        i := i + 1;
      }
      if i < |queue| {
        assert queue[i..][1..] == queue[i + 1..];
        queue := queue[..i] + queue[i + 1..];
      }
    }

    method ProcessNewRequest(inviteWithTag: bool, routed: bool, client: bool, txn: Txn, sip: SipId, now: int)
      returns (status: nat)
      modifies this
      ensures (View(), status)
              == PendingSpec.ProcessNewRequest(old(View()), inviteWithTag, routed, client, txn, sip, now)
    {
      if inviteWithTag { return 481; }
      if !routed && !client { return 503; }
      Add(txn, sip, now);
      return 0;
    }

    /** The queue detaches at most one entry, whose callback gives up on the request. */
    method DoTimer(now: int)
      requires queue != [] ==> AssertHolds(View(), queue[0].id)
      modifies this
      ensures View() == Wake(old(View()), now)
    {
      clock := now;
      if |queue| > 0 && queue[0].when < now {
        var txn := queue[0].id;
        queue := queue[1..];
        var _ := FindAndRemove(txn, true);
      }
    }
  }
}

module PendingRuns {
  import opened PendingSpec
  import opened TimerSpec

  /** Both tables hold the same requests, each under its own keys. */
  predicate SameRequests(s: State) {
    && (forall t :: t in s.byTxn ==>
          s.byTxn[t].txn == t && s.byTxn[t].sip in s.bySip && s.bySip[s.byTxn[t].sip] == s.byTxn[t])
    && (forall i :: i in s.bySip ==>
          s.bySip[i].sip == i && s.bySip[i].txn in s.byTxn && s.byTxn[s.bySip[i].txn] == s.bySip[i])
  }

  predicate DistinctIds(q: seq<Item>) { forall i, j :: 0 <= i < j < |q| ==> q[i].id != q[j].id }

  ghost predicate EntriesKnown(q: seq<Item>, byTxn: map<Txn, Request>) {
    forall x :: x in q ==> x.id in byTxn && x == Entry(byTxn[x.id])
  }

  /** Every queued entry is the timer of one waiting request, and no request has two. */
  ghost predicate Timed(s: State) {
    Sorted(s.queue) && EntriesKnown(s.queue, s.byTxn) && DistinctIds(s.queue)
  }

  predicate AllTimed(s: State) { forall t :: t in s.byTxn ==> Entry(s.byTxn[t]) in s.queue }

  /** Each request that ever arrived is waiting or has left, once. */
  ghost predicate OnceOnly(s: State) {
    && s.byTxn.Keys <= s.arrived
    && forall t :: t in s.arrived || t in s.left ==> s.left[t] + (if t in s.byTxn then 1 else 0) == 1 && t in s.arrived
  }

  ghost predicate Inv(s: State) { SameRequests(s) && Timed(s) && OnceOnly(s) }

  // ---------- adding ----------

  lemma AddSame(s: State, txn: Txn, sip: SipId, now: int)
    requires SameRequests(s) && txn !in s.byTxn
    ensures SameRequests(Add(s, txn, sip, now)) <==> !IsRetransmission(s, sip)
  {
    var r := Add(s, txn, sip, now);
    if IsRetransmission(s, sip) {
      assert r.byTxn[txn].txn == txn && r.bySip[sip].txn != txn;
    }
  }

  lemma InsertedMembers(q: seq<Item>, e: Item)
    ensures var w := Inserted(q, e);
      && (forall x :: x in w <==> x in q || x == e)
  {
    var p := InsertPos(q, e.when);
    assert q == q[..p] + q[p..];
  }

  lemma InsertedIds(q: seq<Item>, e: Item)
    requires DistinctIds(q) && forall x :: x in q ==> x.id != e.id
    ensures DistinctIds(Inserted(q, e))
  {
    var p, w := InsertPos(q, e.when), Inserted(q, e);
    assert forall i :: 0 <= i < |w| ==> w[i] == if i < p then q[i] else if i == p then e else q[i - 1];
  }

  lemma AddTimed(s: State, txn: Txn, sip: SipId, now: int)
    requires Timed(s) && txn !in s.byTxn
    ensures var r := Add(s, txn, sip, now);
      Timed(r) && (AllTimed(s) ==> (AllTimed(r) <==> !FallsOff(s.queue, now + CLIENT_TIMEOUT)))
  {
    var e := Item(txn, now + CLIENT_TIMEOUT);
    var r := Add(s, txn, sip, now);
    assert r.byTxn == s.byTxn[txn := Request(txn, sip, now + CLIENT_TIMEOUT)];
    if FallsOff(s.queue, e.when) {
      assert Entry(r.byTxn[txn]) !in r.queue;
    } else {
      InsertedSorted(s.queue, e);
      InsertedMembers(s.queue, e);
      InsertedIds(s.queue, e);
      hide Inserted, Sorted, DistinctIds;
    }
  }

  lemma AddOnce(s: State, txn: Txn, sip: SipId, now: int)
    requires OnceOnly(s) && txn !in s.arrived
    ensures OnceOnly(Add(s, txn, sip, now))
  {
  }

  // ---------- leaving ----------

  lemma {:induction false} DroppedAt(q: seq<Item>, e: Item) returns (k: nat)
    ensures k <= |q| && (k == |q| ==> Dropped(q, e) == q && e !in q)
    ensures k < |q| ==> q[k] == e && Dropped(q, e) == Without(q, k)
  {
    if q == [] {
      k := 0;
    } else if q[0] == e {
      k := 0;
      assert Without(q, 0) == q[1..];
    } else {
      var j := DroppedAt(q[1..], e);
      k := j + 1;
      assert q == [q[0]] + q[1..];
      if j < |q[1..]| {
        assert Without(q, k) == [q[0]] + Without(q[1..], j);
      }
    }
  }

  lemma WithoutMembers(q: seq<Item>, k: nat)
    requires DistinctIds(q) && k < |q|
    ensures DistinctIds(Without(q, k)) && forall x :: x in Without(q, k) <==> x in q && x != q[k]
  {
    assert q == q[..k] + [q[k]] + q[k + 1..];
    assert forall i :: 0 <= i < k ==> q[..k][i] == q[i];
    assert forall i :: k < i < |q| ==> q[k + 1..][i - k - 1] == q[i];
  }

  lemma DroppedMembers(q: seq<Item>, e: Item)
    requires DistinctIds(q) && Sorted(q)
    ensures var w := Dropped(q, e);
      DistinctIds(w) && Sorted(w) && forall x :: x in w <==> x in q && x != e
  {
    var k := DroppedAt(q, e);
    if k < |q| {
      WithoutMembers(q, k);
      WithoutSorted(q, k);
    }
    hide Without, Dropped, DistinctIds, Sorted;
  }

  lemma RemoveSame(s: State, txn: Txn, timeout: bool)
    requires SameRequests(s)
    ensures SameRequests(FindAndRemove(s, txn, timeout))
  {
  }

  /** One request and its entry go together. */
  lemma OneLess(s: State, r: State, txn: Txn)
    requires SameRequests(s) && Timed(s) && r.byTxn == s.byTxn - {txn} && Sorted(r.queue) && DistinctIds(r.queue)
    requires forall x :: x in r.queue <==> x in s.queue && x.id != txn
    ensures Timed(r) && (AllTimed(s) ==> AllTimed(r))
  {
    hide Sorted, DistinctIds;
    if AllTimed(s) {
      forall t | t in r.byTxn
        ensures Entry(r.byTxn[t]) in r.queue
      {
        var x := Entry(s.byTxn[t]);
        assert x in s.queue && x.id == t;
      }
    }
  }

  lemma RemoveTimed(s: State, txn: Txn)
    requires Timed(s) && SameRequests(s)
    ensures var r := FindAndRemove(s, txn, false); Timed(r) && (AllTimed(s) ==> AllTimed(r))
  {
    if txn in s.byTxn {
      var e := Entry(s.byTxn[txn]);
      DroppedMembers(s.queue, e);
      hide Dropped, Sorted, DistinctIds;
      assert s.byTxn[txn].txn == txn;
      assert forall x :: x in s.queue && x.id == txn ==> x == e;
      OneLess(s, FindAndRemove(s, txn, false), txn);
    }
  }

  lemma RemoveOnce(s: State, txn: Txn, timeout: bool)
    requires OnceOnly(s)
    ensures OnceOnly(FindAndRemove(s, txn, timeout))
  {
  }

  lemma HeadFirst(q: seq<Item>)
    requires q != [] && Sorted(q) && DistinctIds(q)
    ensures Sorted(q[1..]) && DistinctIds(q[1..]) && forall x :: x in q[1..] <==> x in q && x.id != q[0].id
  {
    assert q == [q[0]] + q[1..];
  }

  lemma WakeTimed(s: State, now: int)
    requires Timed(s) && SameRequests(s)
    ensures var r := Wake(s, now); Timed(r) && (AllTimed(s) ==> AllTimed(r))
  {
    if Due(s.queue, now) != [] {
      HeadFirst(s.queue);
      var txn := s.queue[0].id;
      assert s.queue[0] in s.queue;
      assert AfterWake(s.queue, now) == s.queue[1..] && Wake(s, now).queue == s.queue[1..];
      hide Sorted, DistinctIds;
      OneLess(s, Wake(s, now), txn);
    } else {
      assert AfterWake(s.queue, now) == s.queue;
      hide Sorted, DistinctIds;
    }
  }

  // ---------- runs ----------

  /** A request that carries a SIP identifier and gets a new transaction id; a reply or a proxy order
      from an application; a wake-up of the timer queue. */
  datatype Event =
    | Arrives(sip: SipId, txn: Txn, inviteWithTag: bool, routed: bool, client: bool, now: int)
    | Decided(txn: Txn)
    | Wakes(now: int)

  predicate Enabled(s: State, e: Event) {
    match e
    case Arrives(_, txn, _, _, _, now) => txn !in s.arrived && s.clock <= now
    case Decided(_) => true
    case Wakes(now) => s.clock <= now && s.queue != []
  }

  /** A retransmission is discarded before it can become a new request. */
  function Step(s: State, e: Event): State {
    match e
    case Arrives(sip, txn, tag, routed, client, now) =>
      if IsRetransmission(s, sip) then s else ProcessNewRequest(s, tag, routed, client, txn, sip, now).0
    case Decided(txn) => FindAndRemove(s, txn, false)
    case Wakes(now) => Wake(s, now)
  }

  /** The new entry's deadline is not that of the last one in the queue. */
  predicate Unequal(s: State, e: Event) { e.Arrives? ==> !FallsOff(s.queue, e.now + CLIENT_TIMEOUT) }

  predicate IsRun(ss: seq<State>, es: seq<Event>) {
    && |ss| == |es| + 1 && ss[0] == EMPTY
    && forall i :: 0 <= i < |es| ==> Enabled(ss[i], es[i]) && ss[i + 1] == Step(ss[i], es[i])
  }

  lemma StepKeeps(s: State, e: Event)
    requires Inv(s) && Enabled(s, e)
    ensures Inv(Step(s, e)) && (AllTimed(s) && Unequal(s, e) ==> AllTimed(Step(s, e)))
  {
    match e {
      case Arrives(sip, txn, _, _, _, now) =>
        assert txn !in s.byTxn;
        if !IsRetransmission(s, sip) {
          AddSame(s, txn, sip, now);
          AddTimed(s, txn, sip, now);
          AddOnce(s, txn, sip, now);
        }
        hide SameRequests, Timed, OnceOnly, AllTimed, Add;
      case Decided(txn) =>
        hide SameRequests, Timed, OnceOnly, AllTimed, FindAndRemove;
        RemoveSame(s, txn, false);
        RemoveTimed(s, txn);
        RemoveOnce(s, txn, false);
      case Wakes(now) =>
        WakeKeeps(s, now);
    }
  }

  lemma WakeKeeps(s: State, now: int)
    requires Inv(s)
    ensures Inv(Wake(s, now)) && (AllTimed(s) ==> AllTimed(Wake(s, now)))
  {
    WakeTimed(s, now);
    hide Timed, AllTimed, FindAndRemove;
    var s1 := s.(queue := AfterWake(s.queue, now), clock := now);
    assert SameRequests(s1) && OnceOnly(s1);
    hide SameRequests, OnceOnly;
    if Due(s.queue, now) != [] {
      RemoveSame(s1, Due(s.queue, now)[0].id, true);
      RemoveOnce(s1, Due(s.queue, now)[0].id, true);
    }
  }

  lemma {:induction false} InvOfRun(ss: seq<State>, es: seq<Event>, k: nat)
    requires IsRun(ss, es) && k <= |es|
    ensures Inv(ss[k])
    ensures (forall i :: 0 <= i < k ==> Unequal(ss[i], es[i])) ==> AllTimed(ss[k])
  {
    hide Inv, AllTimed, Step, Unequal, Enabled;
    if k == 0 {
      EmptyInv();
    } else {
      InvOfRun(ss, es, k - 1);
      StepKeeps(ss[k - 1], es[k - 1]);
    }
  }

  lemma EmptyInv()
    ensures Inv(EMPTY) && AllTimed(EMPTY)
  {
  }

  /** On every run the two tables hold the same requests, so the assertion never fails, whichever request
      is decided about or given up on; and every request that arrived either waits or has left exactly
      once. */
  lemma TablesAgree(ss: seq<State>, es: seq<Event>, k: nat, txn: Txn)
    requires IsRun(ss, es) && k <= |es|
    ensures SameRequests(ss[k]) && AssertHolds(ss[k], txn)
    ensures txn in ss[k].arrived ==> ss[k].left[txn] == if txn in ss[k].byTxn then 0 else 1
    ensures txn !in ss[k].arrived ==> ss[k].left[txn] == 0 && txn !in ss[k].byTxn
  {
    InvOfRun(ss, es, k);
    hide IsRun, Timed;
  }

  predicate OnlyEntry(q: seq<Item>, t: Txn, i: nat) {
    i < |q| && q[i].id == t && forall j :: 0 <= j < |q| && q[j].id == t ==> j == i
  }

  /** Every waiting request has exactly one entry in the queue and every entry is that of a waiting
      request, on every run in which no deadline equals the last one's when it is added. */
  lemma OneTimerEach(ss: seq<State>, es: seq<Event>, k: nat)
    requires IsRun(ss, es) && k <= |es| && forall i :: 0 <= i < k ==> Unequal(ss[i], es[i])
    ensures forall t :: t in ss[k].byTxn ==>
      exists i :: OnlyEntry(ss[k].queue, t, i)
    ensures forall i :: 0 <= i < |ss[k].queue| ==> ss[k].queue[i].id in ss[k].byTxn
  {
    InvOfRun(ss, es, k);
    hide IsRun, SameRequests, OnceOnly;
    forall t | t in ss[k].byTxn
      ensures exists i :: OnlyEntry(ss[k].queue, t, i)
    {
      var i :| 0 <= i < |ss[k].queue| && ss[k].queue[i] == Entry(ss[k].byTxn[t]);
      assert OnlyEntry(ss[k].queue, t, i);
    }
  }

  /** What becomes of a request: a retransmission changes nothing, an INVITE with a tag is refused with 481,
      one that no client can take with 503, and any other waits, in both tables, with its timer unless a
      deadline is equal. */
  lemma WhatArrives(s: State, sip: SipId, t: Txn, tag: bool, routed: bool, client: bool, now: int)
    requires Inv(s) && Enabled(s, Arrives(sip, t, tag, routed, client, now))
    ensures var r := Step(s, Arrives(sip, t, tag, routed, client, now));
      && (t in r.byTxn <==> sip !in s.bySip && !tag && (routed || client))
      && (if t in r.byTxn then r.byTxn == s.byTxn[t := r.byTxn[t]] && r.bySip == s.bySip[sip := r.byTxn[t]]
          else r == s)
      && (t in r.byTxn ==> (Item(t, now + 64000) in r.queue <==>
                              s.queue == [] || s.queue[|s.queue| - 1].when != now + 64000))
    ensures var status := ProcessNewRequest(s, tag, routed, client, t, sip, now).1;
      && (status == 481 <==> tag) && (status == 503 <==> !tag && !routed && !client)
      && (status == 0 <==> !tag && (routed || client))
  {
    hide SameRequests, InsertPos, Inserted;
    InsertedMembers(s.queue, Item(t, now + 64000));
    assert Item(t, now + 64000) !in s.queue;
  }

  /** A decision takes its request out of both tables and its timer out of the queue, and leaves every other
      request as it was. */
  lemma DecisionEnds(s: State, t: Txn)
    requires Inv(s) && t in s.byTxn
    ensures var r := Step(s, Decided(t));
      && r.byTxn == s.byTxn - {t} && r.bySip == s.bySip - {s.byTxn[t].sip}
      && (forall x :: x in r.queue <==> x in s.queue && x.id != t)
  {
    hide SameRequests, OnceOnly, Sorted, DistinctIds, Dropped;
    DroppedMembers(s.queue, Entry(s.byTxn[t]));
    assert s.byTxn[t].txn == t by { KeyFact(s, t); }
  }

  lemma KeyFact(s: State, t: Txn)
    requires SameRequests(s) && t in s.byTxn
    ensures s.byTxn[t].txn == t
  {
  }

  /** What a wake-up gives up on is the request at the head of the queue, once past its deadline. */
  lemma GivenUpWhenDue(s: State, now: int, t: Txn)
    requires Inv(s) && t in s.byTxn
    ensures t !in Wake(s, now).byTxn <==> s.queue != [] && s.queue[0].id == t && s.byTxn[t].when < now
  {
    hide SameRequests, OnceOnly;
    assert s.queue != [] ==> s.queue[0] in s.queue;
  }

  /** A request that waits was added with its deadline 64 seconds on, and keeps it. */
  lemma {:induction false} DeadlineOf(ss: seq<State>, es: seq<Event>, i: nat, k: nat, t: Txn)
    requires IsRun(ss, es) && i < k <= |es| && es[i].Arrives? && es[i].txn == t && t in ss[i + 1].byTxn
    ensures t in ss[i + 1].arrived && t in ss[k].arrived
    ensures t in ss[k].byTxn ==> ss[k].byTxn[t].when == es[i].now + 64000
  {
    hide Inv, IsRun;
    StepOfRun(ss, es, k - 1);
    InvOfRun(ss, es, k - 1);
    hide Enabled, Step;
    if k == i + 1 {
      Added64(ss[i], es[i]);
    } else {
      DeadlineOf(ss, es, i, k - 1, t);
      DeadlineStays(ss[k - 1], es[k - 1], t);
    }
  }

  lemma StepOfRun(ss: seq<State>, es: seq<Event>, k: nat)
    requires IsRun(ss, es) && k < |es|
    ensures |ss| == |es| + 1 && Enabled(ss[k], es[k]) && ss[k + 1] == Step(ss[k], es[k])
  {
  }

  lemma Added64(s: State, e: Event)
    requires Inv(s) && Enabled(s, e) && e.Arrives? && e.txn in Step(s, e).byTxn
    ensures e.txn in Step(s, e).arrived && Step(s, e).byTxn[e.txn].when == e.now + 64000
  {
    hide SameRequests, Timed, Added;
    assert e.txn !in s.byTxn;
  }

  lemma DeadlineStays(s: State, e: Event, t: Txn)
    requires Inv(s) && Enabled(s, e) && t in s.arrived
    ensures var r := Step(s, e);
      t in r.arrived && (t in r.byTxn ==> t in s.byTxn && r.byTxn[t] == s.byTxn[t])
  {
    hide SameRequests, Timed, Added, Dropped;
  }

  /** On every run: a wake-up gives up on a request exactly if that is at the head of the queue and more than
      64 seconds (64000 ms) have passed since the request arrived. */
  lemma NotGivenUpEarly(ss: seq<State>, es: seq<Event>, i: nat, k: nat, t: Txn)
    requires IsRun(ss, es) && i < k < |es| && es[i].Arrives? && es[i].txn == t && t in ss[i + 1].byTxn
    requires es[k].Wakes? && t in ss[k].byTxn
    ensures t !in ss[k + 1].byTxn <==> ss[k].queue[0].id == t && es[k].now > es[i].now + 64000
  {
    hide IsRun, Inv, Wake;
    StepOfRun(ss, es, k);
    DeadlineOf(ss, es, i, k, t);
    InvOfRun(ss, es, k);
    GivenUpWhenDue(ss[k], es[k].now, t);
  }

  /** And its turn comes, unless its timer was lost: each wake-up after those 64 seconds gives up on it or
      brings it one place nearer the head. */
  lemma NearerTheHead(ss: seq<State>, es: seq<Event>, i: nat, k: nat, t: Txn, p: nat)
    requires IsRun(ss, es) && i < k < |es| && es[i].Arrives? && es[i].txn == t && t in ss[i + 1].byTxn
    requires es[k].Wakes? && p < |ss[k].queue| && ss[k].queue[p].id == t && es[k].now > es[i].now + 64000
    ensures p == 0 ==> t !in ss[k + 1].byTxn
    ensures p > 0 ==> t in ss[k + 1].byTxn && p - 1 < |ss[k + 1].queue| && ss[k + 1].queue[p - 1].id == t
  {
    hide IsRun, Inv, Wake;
    StepOfRun(ss, es, k);
    DeadlineOf(ss, es, i, k, t);
    InvOfRun(ss, es, k);
    MovesUp(ss[k], es[k].now, p);
  }

  lemma MovesUp(s: State, now: int, p: nat)
    requires Inv(s) && p < |s.queue| && (s.queue[p].id in s.byTxn ==> s.byTxn[s.queue[p].id].when < now)
    ensures var t := s.queue[p].id; var r := Wake(s, now);
      && t in s.byTxn && (p == 0 ==> t !in r.byTxn)
      && (p > 0 ==> t in r.byTxn && p - 1 < |r.queue| && r.queue[p - 1].id == t)
  {
    hide SameRequests, OnceOnly;
    assert s.queue[p] in s.queue && s.queue[0] in s.queue;
    assert p > 0 ==> s.queue[0].when <= s.queue[p].when;
    assert AfterWake(s.queue, now) == s.queue[1..];
  }

  /** The guard is what keeps the tables alike: a request added although its SIP identifier is there
      breaks them, and once both copies are removed the assertion fails. */
  lemma WithoutTheGuard(s: State, a: Txn, b: Txn, sip: SipId, now: int)
    requires Inv(s) && a !in s.byTxn && b !in s.byTxn && a != b && sip !in s.bySip
    ensures var s2 := Add(Add(s, a, sip, now), b, sip, now);
      !SameRequests(s2) && !AssertHolds(FindAndRemove(s2, a, false), b)
  {
    AddSame(s, a, sip, now);
    var s1 := Add(s, a, sip, now);
    AddSame(s1, b, sip, now);
    hide SameRequests, Timed, OnceOnly, Added, Dropped;
  }

  /** Two requests in the same instant: the second gets no timer and is never given up on. */
  lemma SameInstantHasNoTimer(s: State, a: Txn, b: Txn, i: SipId, j: SipId, now: int)
    requires Inv(s) && a !in s.byTxn && b !in s.byTxn && a != b && i != j && i !in s.bySip && j !in s.bySip
    requires forall k :: 0 <= k < |s.queue| ==> s.queue[k].when < now + CLIENT_TIMEOUT
    ensures !AllTimed(Add(Add(s, a, i, now), b, j, now))
  {
    var e := Item(a, now + CLIENT_TIMEOUT);
    var s1 := Add(s, a, i, now);
    AddTimed(s, a, i, now);
    assert InsertPos(s.queue, e.when) == |s.queue|;
    assert s1.queue == s.queue + [e];
    var s2 := Add(s1, b, j, now);
    assert s2.queue == s1.queue;
    assert Entry(s2.byTxn[b]).id == b;
    hide Sorted;
  }
}
