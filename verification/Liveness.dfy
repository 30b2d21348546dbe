/** Closing a connection after too many requests in a row have timed out on it
    (src/sip-dialog-controller.cpp, trackTportLiveness). */
module LivenessSpec {
  import opened Wrappers

  /** What a response says about the connection: a timeout, bytes off the wire, or a failure made up by
      the stack for another reason. */
  datatype Evidence = Timeout | Alive | Neutral

  /** A transport of the stack; `name` is missing if any part of it is. */
  datatype Transport = Transport(secondary: bool, udp: bool, name: Option<string>)

  /** A response, and the transport of its transaction, which may not be known yet. */
  datatype Event = Event(evidence: Evidence, transport: Option<Transport>)

  /** How the stack reports it: without a response, or with one that is or is not internal. */
  function Classify(isNull: bool, isInternal: bool, status: int): Evidence
    requires isNull ==> isInternal
  {
    if isInternal && (isNull || status == 408) then Timeout else if !isInternal then Alive else Neutral
  }

  /** Only connections are tracked, not listening or datagram transports. */
  function Tracked(e: Event): Option<string> {
    if e.transport.None? || !e.transport.value.secondary || e.transport.value.udp then None
    else e.transport.value.name
  }

  function Counter(m: map<string, nat>, key: string): nat { if key in m then m[key] else 0 }

  /** The new counters, and the connection that is shut down. */
  function Count(m: map<string, nat>, limit: nat, e: Event): (map<string, nat>, Option<string>) {
    match Tracked(e)
    case None => (m, None)
    case Some(key) =>
      match e.evidence
      case Timeout =>
        if Counter(m, key) + 1 >= limit then (m - {key}, Some(key)) else (m[key := Counter(m, key) + 1], None)
      case Alive => (m - {key}, None)
      case Neutral => (m, None)
  }

  /** A limit of 0 turns tracking off. */
  function Track(m: map<string, nat>, limit: nat, e: Event): (map<string, nat>, Option<string>) {
    if limit == 0 then (m, None) else Count(m, limit, e)
  }
}

module Liveness {
  import opened Wrappers
  import opened LivenessSpec

  class LivenessTracker {
    const limit: nat
    var counters: map<string, nat>

    constructor (limit: nat)
      ensures this.limit == limit && counters == map[]
    {
      this.limit, counters := limit, map[];
    }

    /** The fast path, taken while nothing is tracked, changes nothing of the outcome. */
    method TrackTportLiveness(isNull: bool, isInternal: bool, status: int, transport: Option<Transport>)
      returns (shut: Option<string>)
      requires isNull ==> isInternal
      modifies this`counters
      ensures (counters, shut) == Track(old(counters), limit, Event(Classify(isNull, isInternal, status), transport))
    {
      shut := None;
      if limit == 0 { return; }
      var isTimeout := isInternal && (isNull || status == 408);
      var isAlive := !isInternal;
      if !isTimeout && counters == map[] {
        assert isAlive ==> forall key :: counters - {key} == counters;
        return;
      }
      if transport.None? { return; }
      var tp := transport.value;
      if !tp.secondary || tp.udp { return; }
      if tp.name.None? { return; }
      var key := tp.name.value;
      if isTimeout {
        var c := (if key in counters then counters[key] else 0) + 1;
        counters := counters[key := c];
        if c >= limit {
          shut := tp.name;
          counters := counters - {key};
          assert counters == old(counters) - {key};
        }
      } else if isAlive {
        counters := counters - {key};
      }
    }
  }
}

module LivenessRuns {
  import opened Wrappers
  import opened LivenessSpec

  function Run(limit: nat, es: seq<Event>): map<string, nat> {
    if es == [] then map[] else Track(Run(limit, es[..|es| - 1]), limit, es[|es| - 1]).0
  }

  /** What the k-th response shuts down. */
  function Shut(limit: nat, es: seq<Event>, k: nat): Option<string>
    requires k < |es|
  {
    Track(Run(limit, es[..k]), limit, es[k]).1
  }

  /** The timeouts on a connection since its last response off the wire, forced closes or not. */
  function Timeouts(es: seq<Event>, key: string): nat {
    if es == [] then 0
    else
      var e, before := es[|es| - 1], Timeouts(es[..|es| - 1], key);
      if Tracked(e) != Some(key) then before
      else if e.evidence == Timeout then before + 1
      else if e.evidence == Alive then 0
      else before
  }

  /** One step of counting modulo the limit. */
  lemma Modulo(t: nat, limit: nat)
    requires limit > 0
    ensures t % limit + 1 >= limit <==> (t + 1) % limit == 0
    ensures t % limit + 1 < limit ==> (t + 1) % limit == t % limit + 1
  {
    var q, r := t / limit, t % limit;
    var q2, r2 := (t + 1) / limit, (t + 1) % limit;
    var d := q2 - q;
    assert limit * d == r + 1 - r2 by {
      assert t == limit * q + r && t + 1 == limit * q2 + r2;
      assert limit * d == limit * q2 - limit * q;
    }
    MulSign(limit, d);
  }

  lemma MulSign(k: nat, d: int)
    ensures d >= 2 ==> k * d >= 2 * k
    ensures d <= -1 ==> k * d + k <= 0
    ensures d == 1 ==> k * d == k
  {
  }

  lemma OneStep(m: map<string, nat>, limit: nat, e: Event, key: string)
    requires limit > 0
    ensures var r := Track(m, limit, e).0;
      if Tracked(e) != Some(key) || e.evidence == Neutral then
        Counter(r, key) == Counter(m, key) && (key in r <==> key in m)
      else if e.evidence == Alive || Counter(m, key) + 1 >= limit then key !in r
      else key in r && r[key] == Counter(m, key) + 1
  {
  }

  lemma StepExact(m: map<string, nat>, limit: nat, e: Event, key: string, t: nat)
    requires limit > 0 && Counter(m, key) == t % limit && (key in m ==> 1 <= m[key] <= limit - 1)
    ensures var r := Track(m, limit, e).0;
      var t1 := if Tracked(e) != Some(key) || e.evidence == Neutral then t
                else if e.evidence == Timeout then t + 1
                else 0;
      Counter(r, key) == t1 % limit && (key in r ==> 1 <= r[key] <= limit - 1)
  {
    OneStep(m, limit, e, key);
    hide Track, Tracked;
    Modulo(t, limit);
  }

  /** For every history, with failures of other kinds between: a connection's counter is the number of its
      timeouts since its last wire response, forced closes starting again from zero; the table holds
      exactly the connections whose counter is not zero. */
  lemma {:induction false} CountersExact(limit: nat, es: seq<Event>, key: string)
    requires limit > 0
    ensures Counter(Run(limit, es), key) == Timeouts(es, key) % limit
    ensures key in Run(limit, es) ==> 1 <= Run(limit, es)[key] <= limit - 1
  {
    hide Track, Tracked;
    if es != [] {
      var before := es[..|es| - 1];
      CountersExact(limit, before, key);
      StepExact(Run(limit, before), limit, es[|es| - 1], key, Timeouts(before, key));
    }
  }

  /** The connection is shut at exactly every limit-th timeout in a row, and nothing else is shut. */
  lemma ShutExactly(limit: nat, es: seq<Event>, k: nat, key: string)
    requires limit > 0 && k < |es|
    ensures Shut(limit, es, k) == Some(key) <==>
      Tracked(es[k]) == Some(key) && es[k].evidence == Timeout && Timeouts(es[..k + 1], key) % limit == 0
  {
    CountersExact(limit, es[..k], key);
    Modulo(Timeouts(es[..k], key), limit);
    assert es[..k + 1][..k] == es[..k];
  }

  // ---------- in terms of what the stack reports ----------

  /** A response as the stack reports it, made up by the stack or off the wire. */
  datatype Report = Report(isNull: bool, isInternal: bool, status: int, transport: Option<Transport>)

  predicate Possible(r: Report) { r.isNull ==> r.isInternal }

  function EventOf(r: Report): Event
    requires Possible(r)
  {
    Event(Classify(r.isNull, r.isInternal, r.status), r.transport)
  }

  function Events(rs: seq<Report>): (es: seq<Event>)
    requires forall i :: 0 <= i < |rs| ==> Possible(rs[i])
    ensures |es| == |rs| && forall i :: 0 <= i < |rs| ==> es[i] == EventOf(rs[i])
  {
    if rs == [] then [] else Events(rs[..|rs| - 1]) + [EventOf(rs[|rs| - 1])]
  }

  predicate On(r: Report, key: string) {
    r.transport.Some? && r.transport.value.secondary && !r.transport.value.udp && r.transport.value.name == Some(key)
  }

  /** A request timed out on the connection: no response at all, or a 408 of the stack's own. */
  predicate TimedOut(r: Report, key: string) { On(r, key) && (r.isNull || (r.isInternal && r.status == 408)) }

  lemma {:induction false} AllTimedOut(rs: seq<Report>, key: string)
    requires forall i :: 0 <= i < |rs| ==> Possible(rs[i]) && TimedOut(rs[i], key)
    ensures Timeouts(Events(rs), key) == |rs|
  {
    if rs != [] {
      AllTimedOut(rs[..|rs| - 1], key);
      assert Events(rs)[..|rs| - 1] == Events(rs[..|rs| - 1]);
    }
  }

  /** A connection on which requests do nothing but time out is shut with the limit-th, and not before; any
      response off the wire starts its count again, and a failure of another kind that the stack makes up
      neither counts nor does that. */
  lemma SilentIsShut(limit: nat, rs: seq<Report>, key: string)
    requires limit > 0 && |rs| == limit && forall i :: 0 <= i < |rs| ==> Possible(rs[i]) && TimedOut(rs[i], key)
    ensures forall k :: 0 <= k < limit ==> (Shut(limit, Events(rs), k) == Some(key) <==> k == limit - 1)
  {
    forall k | 0 <= k < limit
      ensures Shut(limit, Events(rs), k) == Some(key) <==> k == limit - 1
    {
      ShutByNow(limit, rs, k, key);
    }
  }

  lemma ShutByNow(limit: nat, rs: seq<Report>, k: nat, key: string)
    requires k < limit && |rs| == limit && forall i :: 0 <= i < |rs| ==> Possible(rs[i]) && TimedOut(rs[i], key)
    ensures Shut(limit, Events(rs), k) == Some(key) <==> k == limit - 1
  {
    EventsSoFar(rs, k + 1);
    AllTimedOut(rs[..k + 1], key);
    ShutExactly(limit, Events(rs), k, key);
    UpTo(k + 1, limit);
    IsTimeout(rs[k], key);
    hide Shut, Timeouts, Events, Tracked, EventOf;
  }

  lemma EventsSoFar(rs: seq<Report>, k: nat)
    requires k <= |rs| && forall i :: 0 <= i < |rs| ==> Possible(rs[i])
    ensures Events(rs)[..k] == Events(rs[..k])
  {
  }

  lemma UpTo(k: nat, limit: nat)
    requires 0 < k <= limit
    ensures k % limit == if k == limit then 0 else k
  {
  }

  lemma IsTimeout(r: Report, key: string)
    requires Possible(r) && TimedOut(r, key)
    ensures Tracked(EventOf(r)) == Some(key) && EventOf(r).evidence == Timeout
  {
  }

  lemma WhatStartsAgain(limit: nat, rs: seq<Report>, r: Report, key: string)
    requires limit > 0 && On(r, key) && Possible(r) && forall i :: 0 <= i < |rs| ==> Possible(rs[i])
    requires !TimedOut(r, key)
    ensures var m := Run(limit, Events(rs + [r]));
      Counter(m, key) == if r.isInternal then Counter(Run(limit, Events(rs)), key) else 0
    ensures Shut(limit, Events(rs + [r]), |rs|) != Some(key)
  {
    assert (rs + [r])[..|rs|] == rs;
    var es := Events(rs + [r]);
    assert es[..|rs|] == Events(rs);
    assert es[..|rs| + 1] == es;
    OneStep(Run(limit, Events(rs)), limit, EventOf(r), key);
    ShutExactly(limit, es, |rs|, key);
  }

  /** Turned off, nothing is counted and nothing shut. */
  lemma {:induction false} DisabledNeverShuts(es: seq<Event>, k: nat)
    requires k < |es|
    ensures Run(0, es) == map[] && Shut(0, es, k).None?
  {
    if |es| > 1 {
      DisabledNeverShuts(es[..|es| - 1], 0);
    }
  }
}
