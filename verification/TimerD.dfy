/** Answering retransmitted 200 OKs of our INVITEs with the same ACK, until timer D
    (src/sip-dialog-controller.cpp, TimerDHandler). */
module TimerDSpec {
  import opened Wrappers
  import F = FramingSpec

  /** An outgoing transaction of the stack, with the headers that are looked at. */
  datatype Orq = Orq(id: nat, callId: string, cseq: nat)

  function Key(o: Orq): string { o.callId + " " + F.ToString(o.cseq) }

  /** `pending`: INVITEs that wait for the application's ACK. `acked`: INVITEs with the ACK sent for
      them. `timers`: the queued timers, which nothing removes. The rest is history: INVITEs added, INVITEs
      whose last timer was dropped as it was added, INVITEs that timer D or clearTimerD was called for since
      they were last added, INVITEs that clearTimerD was ever called for, those of the ended that kept their
      ACK, ACKs stored and ACKs destroyed. */
  datatype State = State(pending: map<string, Orq>, acked: map<Orq, Orq>, timers: multiset<Orq>,
                         added: set<Orq>, lost: set<Orq>, ended: set<Orq>, cleared: set<Orq>,
                         stranded: set<Orq>, stored: set<Orq>, destroyed: multiset<Orq>)

  const START := State(map[], map[], multiset{}, {}, {}, {}, {}, {}, {}, multiset{})

  /** `dropped` when the timer's deadline equals the last one queued (TimerSpec.ScanFallsOff). */
  function AddInvite(s: State, invite: Orq, dropped: bool): State {
    s.(pending := if Key(invite) in s.pending then s.pending else s.pending[Key(invite) := invite],
       timers := if dropped then s.timers else s.timers + multiset{invite},
       lost := if dropped then s.lost + {invite} else s.lost - {invite},
       added := s.added + {invite}, ended := s.ended - {invite})
  }

  /** The assertion in addInvite. */
  predicate AssertHolds(s: State, invite: Orq) { Key(invite) !in s.pending }

  function AddAck(s: State, ack: Orq): State {
    if Key(ack) !in s.pending then s else
    var invite := s.pending[Key(ack)];
    s.(acked := if invite in s.acked then s.acked else s.acked[invite := ack],
       pending := s.pending - {Key(ack)}, stored := s.stored + {ack})
  }

  /** Whether a response is taken to be a retransmission, and which ACK is sent again. */
  function Resend(s: State, invite: Orq): (bool, Option<Orq>) {
    if invite in s.acked then (true, Some(s.acked[invite]))
    else (Key(invite) in s.pending, None)
  }

  /** Forget an INVITE: what a firing timer D and clearTimerD have in common. Whatever waits under its key
      goes first, whether or not that is this INVITE. */
  function End(s: State, invite: Orq): State {
    var s1 := s.(ended := s.ended + {invite});
    if Key(invite) in s.pending then
      s1.(pending := s.pending - {Key(invite)},
          stranded := if invite in s.acked then s.stranded + {invite} else s.stranded)
    else if invite in s.acked then
      s1.(acked := s.acked - {invite}, destroyed := s.destroyed + multiset{s.acked[invite]},
          stranded := s.stranded - {invite})
    else s1
  }

  function TimerFires(s: State, invite: Orq): State { End(s.(timers := s.timers - multiset{invite}), invite) }

  /** Its second member: whether an ACK was freed. */
  function ClearTimerD(s: State, invite: Orq): (State, bool) {
    (End(s.(cleared := s.cleared + {invite}), invite), Key(invite) !in s.pending && invite in s.acked)
  }
}

module TimerDHandlers {
  import opened Wrappers
  import opened TimerDSpec

  class TimerDHandler {
    var pending: map<string, Orq>
    var acked: map<Orq, Orq>
    var timers: multiset<Orq>
    ghost var added: set<Orq>
    ghost var lost: set<Orq>
    ghost var ended: set<Orq>
    ghost var cleared: set<Orq>
    ghost var stranded: set<Orq>
    ghost var stored: set<Orq>
    ghost var destroyed: multiset<Orq>

    ghost function View(): State
      reads this
    {
      State(pending, acked, timers, added, lost, ended, cleared, stranded, stored, destroyed)
    }

    constructor ()
      ensures View() == START
    {
      pending, acked, timers := map[], map[], multiset{};
      added, lost, ended, cleared, stranded, stored, destroyed := {}, {}, {}, {}, {}, {}, multiset{};
    }

    /** Inserting under a key that is taken changes nothing. */
    method AddInvite(invite: Orq, dropped: bool)
      modifies this
      ensures View() == TimerDSpec.AddInvite(old(View()), invite, dropped)
    {
      if Key(invite) !in pending {
        pending := pending[Key(invite) := invite];
      }
      if !dropped {
        timers := timers + multiset{invite};
      }
      added, ended := added + {invite}, ended - {invite};
      lost := if dropped then lost + {invite} else lost - {invite};
    }

    method AddAck(ack: Orq)
      modifies this
      ensures View() == TimerDSpec.AddAck(old(View()), ack)
    {
      var key := Key(ack);
      if key in pending {
        var invite := pending[key];
        if invite !in acked { acked := acked[invite := ack]; }
        pending := pending - {key};
        stored := stored + {ack};
      }
    }

    method ResendIfNeeded(invite: Orq) returns (needed: bool, resent: Option<Orq>)
      ensures (needed, resent) == Resend(View(), invite)
    {
      if invite in acked { return true, Some(acked[invite]); }
      if |pending| > 0 {
        if Key(invite) in pending { return true, None; }
      }
      return false, None;
    }

    method NtaOutgoingDestroy(ack: Orq)
      modifies this`destroyed
      ensures destroyed == old(destroyed) + multiset{ack}
    {
      destroyed := destroyed + multiset{ack};
    }

    method TimerD(invite: Orq)
      requires invite in timers
      modifies this
      ensures View() == TimerFires(old(View()), invite)
    {
      timers := timers - multiset{invite};
      var _ := Forget(invite);
    }

    method ClearTimerD(invite: Orq) returns (success: bool)
      modifies this
      ensures (View(), success) == TimerDSpec.ClearTimerD(old(View()), invite)
    {
      cleared := cleared + {invite};
      success := Forget(invite);
    }

    /** What the two have in common. */
    method Forget(invite: Orq) returns (success: bool)
      modifies this`ended, this`stranded, this`pending, this`acked, this`destroyed
      ensures View() == End(old(View()), invite)
      ensures success <==> Key(invite) !in old(pending) && invite in old(acked)
    {
      hide Key;
      success := false;
      ended := ended + {invite};
      if Key(invite) in pending {
        pending := pending - {Key(invite)};
        stranded := if invite in acked then stranded + {invite} else stranded;
      } else if invite in acked {
        NtaOutgoingDestroy(acked[invite]);
        acked, stranded := acked - {invite}, stranded - {invite};
        success := true;
      }
    }
  }
}

module TimerDRuns {
  import opened Wrappers
  import opened TimerDSpec
  import F = FramingSpec

  // ---------- keys ----------

  lemma LastSpace(o: Orq)
    ensures Key(o)[|o.callId|] == ' ' && forall i :: |o.callId| < i < |Key(o)| ==> Key(o)[i] != ' '
  {
    var ds := F.ToString(o.cseq);
    forall i | |o.callId| < i < |Key(o)|
      ensures Key(o)[i] != ' '
    {
      assert Key(o)[i] == ds[i - |o.callId| - 1] && F.IsDigit(ds[i - |o.callId| - 1]);
    }
  }

  /** The decimal number after the last space tells where the Call-ID ends, so that two transactions have
      the same key exactly if both headers agree. */
  lemma KeysAgree(a: Orq, b: Orq)
    ensures Key(a) == Key(b) <==> a.callId == b.callId && a.cseq == b.cseq
  {
    if Key(a) == Key(b) {
      LastSpace(a);
      LastSpace(b);
      assert |a.callId| == |b.callId|;
      assert a.callId == Key(a)[..|a.callId|] == b.callId;
      assert F.ToString(a.cseq) == Key(a)[|a.callId| + 1..] == F.ToString(b.cseq);
      F.ValueOfToString(a.cseq);
      F.ValueOfToString(b.cseq);
    }
  }

  // ---------- what every run keeps ----------

  /** An INVITE waits under its own key or has its ACK, not both, and waits only until it is ended. */
  ghost predicate Tables(s: State) {
    && (forall k :: k in s.pending ==>
          Key(s.pending[k]) == k && s.pending[k] in s.added && s.pending[k] !in s.acked && s.pending[k] !in s.ended)
    && (forall o :: o in s.acked ==> o in s.added && (o in s.ended <==> o in s.stranded))
    && (forall o :: o in s.stranded ==> o in s.acked)
  }

  ghost predicate Timed(s: State) { forall o :: o in s.timers ==> o in s.added }

  /** An ACK is destroyed once it is no longer held for its INVITE, and once. */
  ghost predicate Acks(s: State) {
    && (forall o :: o in s.acked ==> s.acked[o] in s.stored)
    && (forall o, p :: o in s.acked && p in s.acked && s.acked[o] == s.acked[p] ==> o == p)
    && (forall a: Orq :: s.destroyed[a] == if a in s.stored && a !in s.acked.Values then 1 else 0)
  }

  ghost predicate Inv(s: State) { Tables(s) && Timed(s) && Acks(s) }

  /** A 200 OK to an INVITE that opens a dialog, a 200 OK to a re-INVITE, an ACK from the application, a firing
      timer, a hang-up. */
  datatype Event =
    | Answered(invite: Orq, dropped: bool)
    | Reinvited(invite: Orq, dropped: bool)
    | Acked(ack: Orq)
    | Fires(invite: Orq)
    | Clears(invite: Orq)

  /** A 200 OK that is not taken for a retransmission adds its INVITE, and it may not be the first: the far
      end repeats it for 31.5 s and timer D runs 30 s, so an INVITE that was never ACKed is added anew by
      the last repetition. None is added once it was given to clearTimerD: only the destructor of its dialog
      does that, and then no invite in progress holds it. A re-INVITE is added without that check, by its
      only response. An ACK is a new transaction. That these are no more than the controller grants is
      OutgoingRuns.TimerDTakesPart. */
  predicate Enabled(s: State, e: Event) {
    match e
    case Answered(o, _) => !Resend(s, o).0 && o !in s.cleared
    case Reinvited(o, _) => o !in s.added
    case Acked(a) => a !in s.stored
    case Fires(o) => o in s.timers
    case Clears(_) => true
  }

  function Step(s: State, e: Event): State {
    match e
    case Answered(o, dropped) => AddInvite(s, o, dropped)
    case Reinvited(o, dropped) => AddInvite(s, o, dropped)
    case Acked(a) => AddAck(s, a)
    case Fires(o) => TimerFires(s, o)
    case Clears(o) => ClearTimerD(s, o).0
  }

  predicate IsRun(ss: seq<State>, es: seq<Event>) {
    && |ss| == |es| + 1 && ss[0] == START
    && forall i :: 0 <= i < |es| ==> Enabled(ss[i], es[i]) && ss[i + 1] == Step(ss[i], es[i])
  }

  /** Also when the key is taken. */
  lemma AddInviteKeeps(s: State, o: Orq, dropped: bool)
    requires Inv(s) && o !in s.acked
    ensures Inv(AddInvite(s, o, dropped))
  {
    hide Key;
    var r := AddInvite(s, o, dropped);
    assert Tables(r);
    hide Tables;
  }

  lemma AddAckKeeps(s: State, a: Orq)
    requires Inv(s) && a !in s.stored
    ensures Inv(AddAck(s, a))
  {
    hide Key, Tables, Acks;
    if Key(a) in s.pending {
      AckTables(s, a, s.pending[Key(a)]);
      AckAcks(s, a, s.pending[Key(a)]);
    }
  }

  lemma AckTables(s: State, a: Orq, o: Orq)
    requires Tables(s) && Key(a) in s.pending && s.pending[Key(a)] == o
    ensures Tables(AddAck(s, a))
  {
    hide Key;
    assert AddAck(s, a).acked == s.acked[o := a];
  }

  lemma AckAcks(s: State, a: Orq, o: Orq)
    requires Acks(s) && Tables(s) && a !in s.stored && Key(a) in s.pending && s.pending[Key(a)] == o
    ensures Acks(AddAck(s, a))
  {
    hide Key;
    var r := AddAck(s, a);
    assert r.acked == s.acked[o := a] && o !in s.acked;
    forall b: Orq
      ensures b in r.acked.Values <==> b in s.acked.Values || b == a
    {
      if b in s.acked.Values {
        var p :| p in s.acked && s.acked[p] == b;
        assert r.acked[p] == b;
      }
      assert r.acked[o] == a;
    }
    assert a !in s.acked.Values;
  }

  lemma EndKeeps(s: State, o: Orq)
    requires Inv(s)
    ensures Inv(End(s, o))
  {
    hide Key, Acks, Tables;
    EndTables(s, o);
    if Key(o) !in s.pending && o in s.acked {
      EndAcks(s, o);
    } else {
      SameAcks(s, End(s, o));
    }
  }

  lemma EndTables(s: State, o: Orq)
    requires Tables(s)
    ensures Tables(End(s, o))
  {
    hide Key;
    assert forall k :: k in s.pending && s.pending[k] == o ==> k == Key(o);
  }

  lemma SameAcks(s: State, r: State)
    requires Acks(s) && r.acked == s.acked && r.stored == s.stored && r.destroyed == s.destroyed
    ensures Acks(r)
  {
  }

  lemma EndAcks(s: State, o: Orq)
    requires Acks(s) && o in s.acked && Key(o) !in s.pending
    ensures Acks(End(s, o))
  {
    hide Key;
    var r, a := End(s, o), s.acked[o];
    assert r.acked == s.acked - {o};
    assert a in s.acked.Values;
    forall b: Orq
      ensures b in r.acked.Values <==> b in s.acked.Values && b != a
    {
      if b in s.acked.Values && b != a {
        var p :| p in s.acked && s.acked[p] == b;
        assert r.acked[p] == b;
      }
    }
  }

  lemma FiresKeeps(s: State, o: Orq)
    requires Inv(s) && o in s.timers
    ensures Inv(TimerFires(s, o))
  {
    hide Key, Acks, Tables, End;
    var s1 := s.(timers := s.timers - multiset{o});
    assert Inv(s1) by { OtherTimers(s, s1.timers); }
    EndKeeps(s1, o);
  }

  lemma OtherTimers(s: State, timers: multiset<Orq>)
    requires Inv(s) && timers <= s.timers
    ensures Inv(s.(timers := timers))
  {
    hide Key;
  }

  lemma ClearsKeeps(s: State, o: Orq)
    requires Inv(s)
    ensures Inv(ClearTimerD(s, o).0)
  {
    hide End;
    var s1 := s.(cleared := s.cleared + {o});
    assert Inv(s1) by { hide Key; }
    EndKeeps(s1, o);
  }

  lemma NotAcked(s: State, o: Orq)
    requires Inv(s) && o !in s.added
    ensures o !in s.acked && o !in s.timers
  {
    hide Key;
  }

  lemma StepKeeps(s: State, e: Event)
    requires Inv(s) && Enabled(s, e)
    ensures Inv(Step(s, e))
  {
    hide Inv, AddInvite, AddAck, TimerFires, ClearTimerD, Key;
    match e
    case Answered(o, dropped) => AddInviteKeeps(s, o, dropped);
    case Reinvited(o, dropped) =>
      NotAcked(s, o);
      AddInviteKeeps(s, o, dropped);
    case Acked(a) => AddAckKeeps(s, a);
    case Fires(o) => FiresKeeps(s, o);
    case Clears(o) => ClearsKeeps(s, o);
  }

  lemma {:induction false} InvOfRun(ss: seq<State>, es: seq<Event>, k: nat)
    requires IsRun(ss, es) && k <= |es|
    ensures Inv(ss[k])
  {
    hide Inv, Enabled, Step;
    if k > 0 {
      InvOfRun(ss, es, k - 1);
      StepKeeps(ss[k - 1], es[k - 1]);
    } else {
      StartInv();
    }
  }

  lemma StartInv()
    ensures Inv(START)
  {
  }

  // ---------- ACKs ----------

  /** On every run, also with keys that INVITEs share: every ACK that was stored is destroyed once it is no
      longer held, and never twice. An INVITE is in one of the tables at most. When every INVITE has been
      ended since it was last added, none waits any more, and the ACKs still held are exactly those of the
      INVITEs that were stranded. */
  lemma AcksDestroyedOnce(ss: seq<State>, es: seq<Event>, k: nat, a: Orq)
    requires IsRun(ss, es) && k <= |es|
    ensures ss[k].destroyed[a] == if a in ss[k].stored && a !in ss[k].acked.Values then 1 else 0
    ensures forall key :: key in ss[k].pending ==> ss[k].pending[key] !in ss[k].acked
    ensures (forall o :: o in ss[k].added ==> o in ss[k].ended) ==>
      ss[k].pending == map[] && ss[k].acked.Keys == ss[k].stranded
  {
    InvOfRun(ss, es, k);
    hide IsRun, Key;
    if forall o :: o in ss[k].added ==> o in ss[k].ended {
      assert forall key :: key !in ss[k].pending;
    }
  }

  /** When an INVITE is ended its ACK stays behind exactly if it has one and something waits under its key:
      that goes in its place. Otherwise the INVITE is forgotten. A firing timer leaves none to end the INVITE
      again exactly if it was the only one. */
  lemma StrandsExactly(s: State, o: Orq)
    requires Inv(s)
    ensures o in End(s, o).acked <==> o in s.acked && Key(o) in s.pending
    ensures o in End(s, o).acked ==>
      o in End(s, o).stranded && End(s, o).destroyed == s.destroyed && s.pending[Key(o)] != o
    ensures o in s.timers ==> (o !in TimerFires(s, o).timers <==> s.timers[o] == 1)
    ensures o !in End(s, o).acked ==> !Resend(End(s, o), o).0
  {
    hide Key;
  }

  // ---------- INVITEs that share a key ----------

  predicate Adds(e: Event) { e.Answered? || e.Reinvited? }

  /** What an event does to another INVITE, exactly. Adding an INVITE, with the check before it or without,
      makes the responses to another retransmissions, and ending one makes them so no more, if and only if
      the two share their key, the other has no ACK, and something waits under that key when one is ended
      and nothing when one is added. */
  lemma DisturbsExactly(s: State, e: Event, p: Orq)
    requires Inv(s) && Enabled(s, e) && !e.Acked? && e.invite != p
    ensures Resend(Step(s, e), p) != Resend(s, p) <==>
      Key(e.invite) == Key(p) && p !in s.acked && (Adds(e) <==> Key(p) !in s.pending)
  {
    hide Key;
  }

  /** What an ACK does to an INVITE, exactly: it is stored for the one that waits under its key, and
      another with that key that has no ACK is forgotten. */
  lemma AckDisturbsExactly(s: State, a: Orq, p: Orq)
    requires Inv(s) && Enabled(s, Acked(a))
    ensures Resend(AddAck(s, a), p) != Resend(s, p) <==>
      Key(a) == Key(p) && p !in s.acked && Key(a) in s.pending
    ensures Resend(AddAck(s, a), p) != Resend(s, p) ==>
      Resend(AddAck(s, a), p) == if s.pending[Key(a)] == p then (true, Some(a)) else (false, None)
  {
    hide Key;
  }

  /** No INVITE but o has been added or ended with the key of o. */
  predicate Alone(es: seq<Event>, k: nat, o: Orq)
    requires k <= |es|
  {
    forall j :: 0 <= j < k && !es[j].Acked? && Key(es[j].invite) == Key(o) ==> es[j].invite == o
  }

  /** What then holds of o. */
  predicate Own(s: State, o: Orq) {
    && (Key(o) in s.pending ==> s.pending[Key(o)] == o)
    && (o in s.acked || Key(o) in s.pending ==> o in s.added)
    && (o in s.added ==> (o !in s.ended <==> o in s.acked || Key(o) in s.pending))
    && (o in s.added && o !in s.ended ==> (o in s.timers <==> o !in s.lost))
    && (o in s.added && o in s.ended && o in s.timers ==> o in s.cleared)
    && s.timers[o] <= 1
  }

  lemma OwnKeeps(s: State, e: Event, o: Orq)
    requires Inv(s) && Enabled(s, e) && Own(s, o)
    requires !e.Acked? && Key(e.invite) == Key(o) ==> e.invite == o
    ensures Own(Step(s, e), o)
  {
    hide Key, Inv, AddInvite, AddAck, End, Own;
    match e
    case Answered(p, dropped) => OwnAdded(s, p, dropped, o);
    case Reinvited(p, dropped) => OwnAdded(s, p, dropped, o);
    case Acked(a) => OwnAcked(s, a, o);
    case Fires(p) => OwnEnded(s, s.(timers := s.timers - multiset{p}), p, o);
    case Clears(p) => OwnEnded(s, s.(cleared := s.cleared + {p}), p, o);
  }

  lemma OwnEnded(s: State, s1: State, p: Orq, o: Orq)
    requires Inv(s) && Own(s, o) && (Key(p) == Key(o) ==> p == o)
    requires s1 == s.(timers := s.timers - multiset{p}) || s1 == s.(cleared := s.cleared + {p})
    ensures Own(End(s1, p), o)
  {
    hide Key, Acks;
  }

  lemma OwnAdded(s: State, p: Orq, dropped: bool, o: Orq)
    requires Inv(s) && Own(s, o) && (Key(p) == Key(o) ==> p == o)
    requires Enabled(s, Answered(p, dropped)) || Enabled(s, Reinvited(p, dropped))
    ensures Own(AddInvite(s, p, dropped), o)
  {
    hide Key, Acks;
  }

  lemma OwnAcked(s: State, a: Orq, o: Orq)
    requires Inv(s) && Own(s, o)
    ensures Own(AddAck(s, a), o)
  {
    hide Key, Acks;
  }

  lemma {:induction false} OwnOfRun(ss: seq<State>, es: seq<Event>, k: nat, o: Orq)
    requires IsRun(ss, es) && k <= |es| && Alone(es, k, o)
    ensures Own(ss[k], o)
  {
    hide Key, Inv, Enabled, Step;
    if k > 0 {
      OwnOfRun(ss, es, k - 1, o);
      InvOfRun(ss, es, k - 1);
      OwnKeeps(ss[k - 1], es[k - 1], o);
    }
  }

  /** As long as no other INVITE with its key is added or ended: a response to an INVITE counts as a
      retransmission exactly from when the INVITE was last added until its timer D fired or it was cleared,
      its ACK is sent again as soon as there is one, and meanwhile its timer is queued exactly if it was
      not dropped. */
  lemma ResentExactlyWhileHeld(ss: seq<State>, es: seq<Event>, k: nat, o: Orq)
    requires IsRun(ss, es) && k <= |es| && Alone(es, k, o)
    ensures Resend(ss[k], o).0 <==> o in ss[k].added && o !in ss[k].ended
    ensures var ack := Resend(ss[k], o).1;
      ack.Some? ==> ack.value in ss[k].stored && ack.value !in ss[k].destroyed
    ensures Resend(ss[k], o).0 ==> ss[k].timers[o] == if o in ss[k].lost then 0 else 1
    ensures o !in ss[k].stranded
  {
    OwnOfRun(ss, es, k, o);
    InvOfRun(ss, es, k);
    hide IsRun, Key, Alone;
    if Resend(ss[k], o).1.Some? {
      assert ss[k].acked[o] in ss[k].acked.Values;
    }
  }

  /** The second life of an INVITE is real: it is answered, never ACKed, timer D ends it, and the next
      200 OK adds it again. */
  lemma AddedAgain(o: Orq) returns (ss: seq<State>, es: seq<Event>)
    ensures IsRun(ss, es) && es == [Answered(o, false), Fires(o), Answered(o, false)]
    ensures o in ss[2].ended && !Resend(ss[2], o).0 && o !in ss[3].ended && Resend(ss[3], o).0
  {
    hide Key;
    es := [Answered(o, false), Fires(o), Answered(o, false)];
    var s1 := AddInvite(START, o, false);
    assert s1.pending == map[Key(o) := o] && s1.timers == multiset{o};
    var s2 := TimerFires(s1, o);
    assert s2.pending == map[] && s2.timers == multiset{};
    ss := [START, s1, s2, AddInvite(s2, o, false)];
  }

  /** The check before it is what the assertion in addInvite needs: it fails exactly for an INVITE that has
      no ACK itself but whose key is waiting for one, and for such an INVITE the check says so. */
  lemma GuardImpliesAssertion(s: State, o: Orq)
    requires Inv(s)
    ensures !AssertHolds(s, o) ==> Resend(s, o).0
    ensures Resend(s, o).0 <==> o in s.acked || !AssertHolds(s, o)
    ensures !AssertHolds(s, o) ==> s.pending[Key(o)] in s.added && s.pending[Key(o)] !in s.ended
  {
    hide Key;
  }

  // ---------- two timers for one INVITE ----------

  /** How many timers were queued for an INVITE in the first k events, and how many of them fired. */
  function Queued(es: seq<Event>, k: nat, o: Orq): nat
    requires k <= |es|
  {
    if k == 0 then 0
    else Queued(es, k - 1, o) + if Adds(es[k - 1]) && es[k - 1].invite == o && !es[k - 1].dropped then 1 else 0
  }

  function Fired(es: seq<Event>, k: nat, o: Orq): nat
    requires k <= |es|
  {
    if k == 0 then 0 else Fired(es, k - 1, o) + if es[k - 1] == Fires(o) then 1 else 0
  }

  /** An event makes timer D forget an INVITE whose timer is queued, though neither that timer nor
      clearTimerD asked for it: another INVITE with its key is ended, or the ACK is taken by another that
      waits under it. */
  predicate Forgets(s: State, e: Event, o: Orq) {
    && o in s.timers && o !in s.cleared && o !in s.acked && Key(o) in s.pending
    && match e
       case Answered(_, _) => false
       case Reinvited(_, _) => false
       case Acked(a) => Key(a) == Key(o) && s.pending[Key(o)] != o
       case Fires(p) => p != o && Key(p) == Key(o)
       case Clears(p) => p != o && Key(p) == Key(o)
  }

  /** The next 200 OK to the INVITE would give it a second timer. */
  predicate Exposed(s: State, o: Orq) { Enabled(s, Answered(o, false)) && o in s.timers }

  /** What an event does to an INVITE with one timer, exactly: it leaves the INVITE to be added once more while
      that timer is queued if and only if it makes timer D forget it, or that was so before and no INVITE with
      its key is added and the INVITE itself neither fires nor is cleared. */
  lemma ExposesExactly(s: State, e: Event, o: Orq)
    requires Inv(s) && Enabled(s, e) && s.timers[o] == 1
    ensures Exposed(Step(s, e), o) <==>
      || Forgets(s, e, o)
      || (Exposed(s, o) && match e
          case Answered(p, _) => Key(p) != Key(o)
          case Reinvited(p, _) => Key(p) != Key(o)
          case Acked(_) => true
          case Fires(p) => p != o
          case Clears(p) => p != o)
  {
    hide Key;
  }

  /** One timer at most, and one that is queued is that of an INVITE that timer D holds or that was cleared. */
  predicate OneTimer(s: State, o: Orq) {
    s.timers[o] <= 1 && (o in s.timers ==> o in s.cleared || Resend(s, o).0)
  }

  lemma OneTimerKeeps(s: State, e: Event, o: Orq)
    requires Inv(s) && Enabled(s, e) && OneTimer(s, o) && !Forgets(s, e, o)
    ensures OneTimer(Step(s, e), o)
  {
    hide Key, Tables, Acks;
  }

  lemma OneTimerAtStart(o: Orq)
    ensures OneTimer(START, o)
  {
  }

  lemma {:induction false} OneTimerUntil(ss: seq<State>, es: seq<Event>, k: nat, o: Orq)
    requires IsRun(ss, es) && k <= |es| && forall j :: 0 <= j < k ==> !Forgets(ss[j], es[j], o)
    ensures OneTimer(ss[k], o)
  {
    hide Key, Inv, Enabled, Step, Forgets, OneTimer;
    if k > 0 {
      OneTimerUntil(ss, es, k - 1, o);
      InvOfRun(ss, es, k - 1);
      OneTimerKeeps(ss[k - 1], es[k - 1], o);
    } else {
      OneTimerAtStart(o);
    }
  }

  lemma TimersStep(s: State, e: Event, o: Orq)
    requires Enabled(s, e)
    ensures Step(s, e).timers[o] ==
      s.timers[o] + (if Adds(e) && e.invite == o && !e.dropped then 1 else 0) - (if e == Fires(o) then 1 else 0)
  {
    hide Key;
  }

  lemma {:induction false} TimersCounted(ss: seq<State>, es: seq<Event>, k: nat, o: Orq)
    requires IsRun(ss, es) && k <= |es|
    ensures ss[k].timers[o] == Queued(es, k, o) - Fired(es, k, o)
  {
    hide Key, Enabled, Step;
    if k > 0 {
      TimersCounted(ss, es, k - 1, o);
      TimersStep(ss[k - 1], es[k - 1], o);
    }
  }

  /** When a 200 OK gives an INVITE a second timer: exactly if fewer of its timers fired than were queued. That
      takes an earlier event that made timer D forget it, and any such event is enough: the next 200 OK is no
      retransmission then and gives it a second timer. */
  lemma SecondTimer(ss: seq<State>, es: seq<Event>, k: nat, o: Orq)
    requires IsRun(ss, es) && k < |es|
    ensures es[k] == Answered(o, false) ==> (ss[k + 1].timers[o] >= 2 <==> Fired(es, k, o) < Queued(es, k, o))
    ensures ss[k + 1].timers[o] >= 2 ==> exists j :: 0 <= j <= k && Forgets(ss[j], es[j], o)
    ensures Forgets(ss[k], es[k], o) ==>
      Exposed(ss[k + 1], o) && Step(ss[k + 1], Answered(o, false)).timers[o] >= 2
  {
    hide Key, Inv, Enabled, Step, Forgets, Exposed;
    TimersCounted(ss, es, k, o);
    TimersCounted(ss, es, k + 1, o);
    if forall j :: 0 <= j < k + 1 ==> !Forgets(ss[j], es[j], o) {
      OneTimerUntil(ss, es, k + 1, o);
    }
    if Forgets(ss[k], es[k], o) {
      InvOfRun(ss, es, k);
      ForgottenIsExposed(ss[k], es[k], o);
    }
  }

  lemma ForgottenIsExposed(s: State, e: Event, o: Orq)
    requires Inv(s) && Enabled(s, e) && Forgets(s, e, o)
    ensures Exposed(Step(s, e), o) && Step(Step(s, e), Answered(o, false)).timers[o] >= 2
  {
    hide Key, Tables, Acks;
  }

  /** A run with a shared key: the timer of the first INVITE makes the handler forget the second, and the ACK
      of the first is not destroyed by the only timer that would. */
  lemma SharedKeyLosesAck(o: Orq, p: Orq, a: Orq) returns (ss: seq<State>, es: seq<Event>)
    requires o != p && Key(o) == Key(p) == Key(a)
    ensures IsRun(ss, es) && es == [Answered(o, false), Acked(a), Answered(p, false), Fires(o)]
    ensures !Resend(ss[4], p).0 && p !in ss[4].ended && p !in ss[4].cleared && ss[4].timers == multiset{p}
    ensures Resend(ss[4], o) == (true, Some(a)) && a !in ss[4].destroyed
    ensures Forgets(ss[3], Fires(o), p)
  {
    hide Key;
    es := [Answered(o, false), Acked(a), Answered(p, false), Fires(o)];
    var s1 := AddInvite(START, o, false);
    assert s1.pending == map[Key(o) := o];
    var s2 := AddAck(s1, a);
    assert s2.pending == map[] && s2.acked == map[o := a];
    var s3 := AddInvite(s2, p, false);
    assert s3.timers == multiset{o, p};
    ss := [START, s1, s2, s3, TimerFires(s3, o)];
  }

  lemma Extended(ss: seq<State>, es: seq<Event>, e: Event)
    requires IsRun(ss, es) && Enabled(ss[|es|], e)
    ensures IsRun(ss + [Step(ss[|es|], e)], es + [e])
  {
    hide Enabled, Step;
  }

  /** That run goes on: the next 200 OK to the second INVITE adds it again, and one of its two timers is still
      queued when the other has ended it. */
  lemma SharedKeyTwoTimers(o: Orq, p: Orq, a: Orq) returns (ss: seq<State>, es: seq<Event>)
    requires o != p && Key(o) == Key(p) == Key(a)
    ensures IsRun(ss, es) && |es| == 6 && es[3..] == [Fires(o), Answered(p, false), Fires(p)]
    ensures Forgets(ss[3], Fires(o), p) && ss[5].timers[p] == 2
    ensures p in ss[6].timers && p in ss[6].ended && !Resend(ss[6], p).0
  {
    hide Key;
    var ss4, es4 := SharedKeyLosesAck(o, p, a);
    var s5 := AddInvite(ss4[4], p, false);
    var s6 := TimerFires(s5, p);
    Extended(ss4, es4, Answered(p, false));
    Extended(ss4 + [s5], es4 + [Answered(p, false)], Fires(p));
    ss, es := ss4 + [s5] + [s6], es4 + [Answered(p, false)] + [Fires(p)];
    assert s5.timers[p] == 2 && ss[3] == ss4[3];
  }
}
