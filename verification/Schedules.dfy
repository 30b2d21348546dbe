/** How often requests and answers are repeated: timers A and E of a proxied request, timer G of a 200 OK
    (src/sip-proxy-controller.cpp, src/sip-dialog.hpp, src/sip-dialog-controller.cpp). */
module Schedules {
  import opened SipDialogs
  import P = ProxyTransactions
  import T = ProxyTimers

  function Pow2(k: nat): (p: nat)
    ensures p >= 1
  {
    if k == 0 then 1 else 2 * Pow2(k - 1)
  }

  lemma {:induction false} Pow2Grows(j: nat, k: nat)
    requires j <= k
    ensures Pow2(j) <= Pow2(k)
  {
    if j < k {
      Pow2Grows(j, k - 1);
    }
  }

  lemma Powers()
    ensures Pow2(3) == 8 && Pow2(6) == 64 && Pow2(7) == 128
  {
    assert Pow2(3) == 8;
    assert Pow2(6) == 64;
  }

  // ---------- timers A and E ----------

  /** A branch after its first transmission and k retransmissions that could be sent. */
  function Branch(invite: bool, provisional: bool, k: nat): P.Client {
    if k == 0 then P.Transmit(P.NewClient(0, "", 0), invite, P.Adds(provisional, {}))
    else P.OnTimer(Branch(invite, provisional, k - 1), if invite then P.A else P.E,
                   P.Adds(provisional, {}), P.Sent, false)
  }

  /** After k retransmissions the branch has been sent k + 1 times and waits 2^k T1 for the next. The
      interval is not capped at T2 for requests other than INVITE either. */
  lemma {:induction false} GapDoubles(invite: bool, provisional: bool, k: nat)
    ensures var c := Branch(invite, provisional, k);
      && c.durationA == Pow2(k) * NTA_SIP_T1 && c.transmitCount == k + 1 && T.Inv(c)
      && c.state == (if invite then P.Calling else P.Trying)
      && c.Queued(if invite then P.A else P.E) == 1 && c.sipMethod == (if invite then P.Invite else P.Other)
  {
    if k > 0 {
      GapDoubles(invite, provisional, k - 1);
      OneMore(Branch(invite, provisional, k - 1), if invite then P.A else P.E, provisional);
    }
  }

  lemma OneMore(c: P.Client, t: P.Timer, provisional: bool)
    requires T.Inv(c) && c.Queued(t) == 1 && (t == P.A || t == P.E)
    requires c.sipMethod == (if t == P.A then P.Invite else P.Other)
    requires c.state == (if t == P.A then P.Calling else P.Trying)
    ensures var r := P.OnTimer(c, t, P.Adds(provisional, {}), P.Sent, false);
      && r.durationA == 2 * c.durationA && r.transmitCount == c.transmitCount + 1 && T.Inv(r)
      && r.state == c.state && r.sipMethod == c.sipMethod && r.Queued(t) == 1
  {
    T.RetransmitKeeps(c, t, P.Adds(provisional, {}), P.Sent, false);
  }

  /** Times of the sends of one branch: the first at `at[0]`, the others when the timer fires, which is
      never early. */
  predicate SentAt(at: seq<int>, invite: bool, provisional: bool) {
    at != [] && forall k :: 0 <= k < |at| - 1 ==> at[k + 1] >= at[k] + Branch(invite, provisional, k).durationA
  }

  predicate OnTime(at: seq<int>, invite: bool, provisional: bool) {
    at != [] && forall k :: 0 <= k < |at| - 1 ==> at[k + 1] == at[k] + Branch(invite, provisional, k).durationA
  }

  lemma {:induction false} SendTimes(at: seq<int>, invite: bool, provisional: bool, k: nat)
    requires SentAt(at, invite, provisional) && k < |at|
    ensures at[k] >= at[0] + (Pow2(k) - 1) * NTA_SIP_T1
    ensures OnTime(at, invite, provisional) ==> at[k] == at[0] + (Pow2(k) - 1) * NTA_SIP_T1
  {
    hide Branch, T.Inv;
    if k > 0 {
      SendTimes(at, invite, provisional, k - 1);
      GapDoubles(invite, provisional, k - 1);
      var gap := Branch(invite, provisional, k - 1).durationA;
      assert gap == Pow2(k - 1) * 500 && at[k] >= at[k - 1] + gap;
    }
  }

  /** However late its timers fire, a branch is sent at most 7 times before timer B (or F) ends it at
      64 T1, after 32000 ms, and with timers on time the seventh is sent before that. */
  lemma AtMostSevenSends(at: seq<int>, invite: bool, provisional: bool)
    requires SentAt(at, invite, provisional) && forall k :: 0 <= k < |at| ==> at[k] < at[0] + 32000
    ensures |at| <= 7
  {
    Powers();
    if |at| > 7 {
      SendTimes(at, invite, provisional, 7);
    }
  }

  lemma SeventhInTime(at: seq<int>, invite: bool, provisional: bool)
    requires OnTime(at, invite, provisional) && |at| == 8
    ensures at[6] < at[0] + 32000 <= at[7]
  {
    Powers();
    SendTimes(at, invite, provisional, 6);
    SendTimes(at, invite, provisional, 7);
  }

  // ---------- timer G ----------

  /** The interval after k retransmissions of the 200 OK. */
  function Interval(k: nat): nat { if k == 0 then NTA_SIP_T1 else Bumped(Interval(k - 1)) }

  /** It doubles up to T2, and doubling it never leaves 32 bits. */
  lemma {:induction false} IntervalIsMin(k: nat)
    ensures Interval(k) == if Pow2(k) * NTA_SIP_T1 <= NTA_SIP_T2 then Pow2(k) * NTA_SIP_T1 else NTA_SIP_T2
    ensures 2 * Interval(k) < 0x1_0000_0000
  {
    if k > 0 {
      IntervalIsMin(k - 1);
    }
  }

  /** Times of the retransmissions of a 200 OK that was first sent at `start`. */
  predicate Repeated(start: int, at: seq<int>) {
    forall k :: 0 <= k < |at| ==> at[k] >= SentBefore(start, at, k) + Interval(k)
  }

  predicate RepeatedOnTime(start: int, at: seq<int>) {
    forall k :: 0 <= k < |at| ==> at[k] == SentBefore(start, at, k) + Interval(k)
  }

  /** When the 200 OK went out before its k-th retransmission. */
  function SentBefore(start: int, at: seq<int>, k: nat): int
    requires k < |at|
  {
    if k == 0 then start else at[k - 1]
  }

  function Elapsed(k: nat): nat { Interval(k) + if k == 0 then 0 else Elapsed(k - 1) }

  lemma {:induction false} RepeatTimes(start: int, at: seq<int>, k: nat)
    requires Repeated(start, at) && k < |at|
    ensures at[k] >= start + Elapsed(k)
    ensures RepeatedOnTime(start, at) ==> at[k] == start + Elapsed(k)
  {
    hide Interval;
    assert at[k] >= SentBefore(start, at, k) + Interval(k);
    assert RepeatedOnTime(start, at) ==> at[k] == SentBefore(start, at, k) + Interval(k);
    if k > 0 {
      RepeatTimes(start, at, k - 1);
      assert SentBefore(start, at, k) == at[k - 1];
      assert Elapsed(k) == Interval(k) + Elapsed(k - 1);
    }
  }

  lemma ElapsedValues()
    ensures Elapsed(9) == 31500 && Elapsed(10) == 35500
  {
    assert Interval(1) == 1000;
    assert Interval(2) == 2000;
    assert Interval(3) == 4000;
    assert forall k :: 3 <= k <= 10 ==> Interval(k) == 4000 by {
      forall k | 3 <= k <= 10
        ensures Interval(k) == 4000
      {
        IntervalIsMin(k);
        Pow2Grows(3, k);
        Powers();
      }
    }
    assert Elapsed(1) == 1500;
    assert Elapsed(2) == 3500;
    assert Elapsed(3) == 7500;
    assert Elapsed(4) == 11500;
    assert Elapsed(5) == 15500;
    assert Elapsed(6) == 19500;
    assert Elapsed(7) == 23500;
    assert Elapsed(8) == 27500;
  }

  /** However late timer G fires, there are at most 10 retransmissions before timer H, and on time there
      are exactly 10. */
  lemma AtMostTenRepeats(start: int, at: seq<int>)
    requires Repeated(start, at) && forall k :: 0 <= k < |at| ==> at[k] < start + 32000
    ensures |at| <= 10
  {
    hide Repeated, Interval, Elapsed;
    ElapsedValues();
    if |at| > 10 {
      RepeatTimes(start, at, 10);
    }
  }

  lemma TenthInTime(start: int, at: seq<int>)
    requires RepeatedOnTime(start, at) && |at| == 11
    ensures at[9] < start + 32000 <= at[10]
  {
    hide Interval, Elapsed;
    ElapsedValues();
    RepeatTimes(start, at, 9);
    RepeatTimes(start, at, 10);
  }
}
