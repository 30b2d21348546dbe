/** What the events of the dialog controller do, read off the tables before and after them: which timers a
    200 OK starts, what an ACK, a CANCEL, a BYE and timer H stop (src/sip-dialog-controller.cpp). */
module DialogEffects {
  import opened Wrappers
  import opened SipDialogs
  import opened DialogSpec
  import opened DialogHandlers
  import opened DialogInvariant
  import opened DialogRuns
  import H = DialogHistory
  import opened DialogTheorems

  // ---------- reading the tables ----------

  /** The leg finds this dialog, in one of the tables. */
  ghost predicate Finds(s: State, leg: Leg, d: SipDialog) {
    || (exists t :: t in s.iips && s.iips[t].leg == leg && s.iips[t].dlg == d)
    || (d in s.stable && d in s.dlgs && s.dlgs[d].leg == leg)
  }

  /** The queue has lost the entries of one dialog and no other. */
  ghost predicate Purged(before: map<Timer, SipDialog>, after: map<Timer, SipDialog>, d: SipDialog) {
    && (forall h :: h in after ==> h in before && after[h] == before[h] && after[h] != d)
    && (forall h :: h in before && before[h] != d ==> h in after)
  }

  ghost predicate OthersSame(before: Dlgs, after: Dlgs, d: SipDialog) {
    after.Keys == before.Keys && forall e :: e in before && e != d ==> after[e] == before[e]
  }

  /** No timer of the dialog is left, neither handle nor entry, and its INVITE irq is forgotten. */
  ghost predicate Quieted(s: State, r: State, d: SipDialog) {
    && d in s.dlgs && OthersSame(s.dlgs, r.dlgs, d)
    && r.dlgs[d] == s.dlgs[d].(timerG := None, timerH := None, inviteIrq := None)
    && Purged(s.queueG, r.queueG, d) && Purged(s.queueH, r.queueH, d)
  }

  /** The invites in progress on this leg are gone, and no other. */
  ghost predicate Vacated(before: Iips, after: Iips, leg: Leg) {
    && (forall t :: t in after ==> t in before && after[t] == before[t] && before[t].leg != leg)
    && (forall t :: t in before && before[t].leg != leg ==> t in after)
  }

  /** The irq of the INVITE in progress on the leg, where the INVITE came to us. */
  ghost predicate InviteIrqOn(s: State, leg: Leg, irq: Irq) {
    exists t :: t in s.iips && s.iips[t].leg == leg && s.iips[t].irq == Some(irq)
  }

  /** The INVITE irq on the leg is destroyed, and no other. */
  ghost predicate InviteIrqGone(s: State, r: State, leg: Leg) {
    forall i :: r.destroyed[i] == s.destroyed[i] + if InviteIrqOn(s, leg, i) then 1 else 0
  }

  // ---------- what a leg finds ----------

  lemma FoundByLeg(s: State, leg: Leg, d: SipDialog)
    requires Inv(s) && Finds(s, leg, d)
    ensures Tracked(s) && d in s.dlgs && DialogByLeg(s, leg) == Some(d) && s.dlgs[d].leg == leg
    ensures var t := IipByLeg(s.iips, leg);
      if t.Some? then s.iips[t.value].dlg == d else StableByLeg(s, leg) == Some(d)
  {
    hide InviteIrqs, TimersG, TimersH, Irqs, Owners, Updates;
  }

  lemma ClearSipTimersQuiets(s: State, d: SipDialog)
    requires Inv(s) && d in s.dlgs
    ensures Quieted(s, ClearSipTimers(s, d), d)
  {
    hide Linked, InviteIrqs, Irqs, Owners, Updates;
  }

  lemma IipClearVacates(s: State, t: Txn)
    requires Inv(s) && t in s.iips && Tracked(s)
    ensures var r := IipClear(s, t); var d := s.iips[t].dlg;
      && Vacated(s.iips, r.iips, s.iips[t].leg) && InviteIrqGone(s, r, s.iips[t].leg)
      && d in s.dlgs && r == s.(iips := r.iips, dlgs := r.dlgs, destroyed := r.destroyed)
      && r.dlgs == s.dlgs[d := s.dlgs[d].(inviteIrq := None)]
  {
    hide TimersG, TimersH, Irqs, Owners, Updates;
    OnlyIip(s, t);
    if s.iips[t].irq.None? {
      NoInviteIrqOf(s, t);
    }
  }

  lemma OnlyIip(s: State, t: Txn)
    requires Inv(s) && t in s.iips
    ensures forall i: Irq :: InviteIrqOn(s, s.iips[t].leg, i) <==> s.iips[t].irq == Some(i)
  {
    hide InviteIrqs, TimersG, TimersH, Irqs, Owners, Updates;
    forall i: Irq
      ensures InviteIrqOn(s, s.iips[t].leg, i) <==> s.iips[t].irq == Some(i)
    {
      if u :| u in s.iips && s.iips[u].leg == s.iips[t].leg && s.iips[u].irq == Some(i) {
        OneIipPerLeg(s, t, u);
      }
    }
  }

  lemma NoInviteIrqOf(s: State, t: Txn)
    requires Inv(s) && t in s.iips && s.iips[t].irq.None?
    ensures s.iips[t].dlg in s.dlgs && s.dlgs[s.iips[t].dlg].inviteIrq.None?
  {
    hide TimersG, TimersH, Irqs, Owners, Updates;
  }

  /** Something before that forgets nothing but the INVITE irq, or after it. */
  lemma QuietedLater(s: State, s1: State, r: State, d: SipDialog)
    requires Quieted(s1, r, d) && OthersSame(s.dlgs, s1.dlgs, d) && d in s.dlgs
    requires s1.dlgs[d] == s.dlgs[d] || s1.dlgs[d] == s.dlgs[d].(inviteIrq := None)
    requires s1.queueG == s.queueG && s1.queueH == s.queueH
    ensures Quieted(s, r, d)
  {
  }

  lemma QuietedBefore(s: State, s1: State, r: State, d: SipDialog)
    requires Quieted(s, s1, d) && r.queueG == s1.queueG && r.queueH == s1.queueH
    requires r.dlgs == s1.dlgs || r.dlgs == s1.dlgs[d := s1.dlgs[d].(inviteIrq := None)]
    ensures Quieted(s, r, d)
  {
  }

  // ---------- an ACK ----------

  /** Clearing an invite in progress and then the timers of its dialog. */
  lemma ClearedInvite(s: State, t: Txn)
    requires Inv(s) && Tracked(s) && t in s.iips
    ensures var r := ClearSipTimers(IipClear(s, t), s.iips[t].dlg);
      && Quieted(s, r, s.iips[t].dlg) && Vacated(s.iips, r.iips, s.iips[t].leg)
      && InviteIrqGone(s, r, s.iips[t].leg) && r.stable == s.stable && r.irqs == s.irqs
  {
    IipClearVacates(s, t);
    IipClearKeeps(s, t);
    hide Inv, IipClear, Quieted, Vacated, InviteIrqGone, InviteIrqOn;
    var d, s1 := s.iips[t].dlg, IipClear(s, t);
    ClearSipTimersQuiets(s1, d);
    QuietedLater(s, s1, ClearSipTimers(s1, d), d);
    hide ClearSipTimers;
    GoneLater(s, s1, ClearSipTimers(s1, d), s.iips[t].leg);
  }

  lemma GoneLater(s: State, s1: State, r: State, leg: Leg)
    requires InviteIrqGone(s, s1, leg) && r.destroyed == s1.destroyed
    ensures InviteIrqGone(s, r, leg)
  {
    hide InviteIrqOn;
  }

  lemma AckedStops(s: State, leg: Leg, d: SipDialog)
    requires Inv(s) && Tracked(s) && Finds(s, leg, d)
    ensures var r := Acked(s, leg);
      && Quieted(s, r, d) && Vacated(s.iips, r.iips, leg) && InviteIrqGone(s, r, leg)
      && r.stable == s.stable && r.irqs == s.irqs
  {
    FoundByLeg(s, leg, d);
    hide Inv, Tracked, IipClear, ClearSipTimers, Quieted, Vacated, InviteIrqGone, Finds;
    var t := IipByLeg(s.iips, leg);
    if t.Some? {
      ClearedInvite(s, t.value);
    } else {
      ClearSipTimersQuiets(s, d);
      NoneOnLeg(s, leg);
      NoneGone(s, ClearSipTimers(s, d), leg);
    }
  }

  lemma NoneGone(s: State, r: State, leg: Leg)
    requires IipByLeg(s.iips, leg).None? && r.destroyed == s.destroyed
    ensures InviteIrqGone(s, r, leg)
  {
  }

  lemma NoneOnLeg(s: State, leg: Leg)
    requires IipByLeg(s.iips, leg).None?
    ensures Vacated(s.iips, s.iips, leg)
  {
  }

  /** An ACK whose leg finds a dialog stops its timers for good: no handle and no entry is left, the INVITE
      in progress on the leg ends, its irq is destroyed and so is the ACK's own, and the dialog stays
      stable if it was. */
  lemma AckStops(s: State, leg: Leg, irq: Irq, d: SipDialog)
    requires Inv(s) && Enabled(s, AckArrives(leg, irq)) && Finds(s, leg, d)
    ensures var r := Step(s, AckArrives(leg, irq));
      && Quieted(s, r, d) && Vacated(s.iips, r.iips, leg) && r.stable == s.stable && r.irqs == s.irqs
      && r.destroyed[irq] == 1
      && forall i :: i != irq ==> r.destroyed[i] == s.destroyed[i] + if InviteIrqOn(s, leg, i) then 1 else 0
  {
    var s0 := Arrive(s, irq);
    ArriveKeeps(s, irq);
    TableFacts(s0);
    FoundByLeg(s, leg, d);
    assert Finds(s0, leg, d);
    var s1 := Acked(s0, leg);
    hide Inv, Acked, Quieted, Vacated, InviteIrqGone, Finds, Tracked;
    AckedStops(s0, leg, d);
    QuietedLater(s, s0, s1, d);
    QuietedBefore(s, s1, Destroy(s1, irq), d);
    GoneAfterArrival(s, irq, s1, leg);
  }

  lemma GoneAfterArrival(s: State, irq: Irq, r: State, leg: Leg)
    requires InviteIrqGone(Arrive(s, irq), r, leg) && Loose(Arrive(s, irq), irq)
    ensures InviteIrqGone(s, r, leg) && r.destroyed[irq] == 0
  {
    forall i: Irq
      ensures InviteIrqOn(Arrive(s, irq), leg, i) <==> InviteIrqOn(s, leg, i)
    {
    }
    assert !InviteIrqOn(s, leg, irq);
  }

  /** What comes through the controller above for a leg that finds a dialog is what comes straight, unless it
      is refused: an INVITE without a tag once the dialog has been answered, and what is not valid. */
  lemma ThroughTheLeg(s: State, leg: Leg, irq: Irq, q: InDialog, valid: bool, untagged: bool, d: SipDialog)
    requires Inv(s) && Enabled(s, LegRequest(leg, irq, q, valid, untagged)) && Finds(s, leg, d)
    ensures
      var r := Step(s, LegRequest(leg, irq, q, valid, untagged));
      var refused := !valid || (q.Another? && q.method_ == Invite_ && untagged && s.dlgs[d].status >= 200);
      r == if refused then s.(seen := s.seen + {irq}) else
        match q
        case AnAck => Step(s, AckArrives(leg, irq))
        case ACancel(forked) => Step(s, CancelArrives(leg, irq, forked))
        case Another(t, m, routing) => Step(s, RequestArrives(leg, irq, t, m, routing))
  {
    FoundByLeg(s, leg, d);
    hide Inv, AckRequest, CancelRequest, OtherRequest, Finds;
  }

  // ---------- callbacks on the INVITE irq ----------

  lemma FoundByIrq(s: State, t: Txn, irq: Irq)
    requires Inv(s) && t in s.iips && s.iips[t].irq == Some(irq)
    ensures IipByIrq(s.iips, irq) == Some(t) && Tracked(s) && s.iips[t].dlg in s.dlgs
  {
    OneIipPerIrq(s, IipByIrq(s.iips, irq).value, t);
    hide InviteIrqs, TimersG, TimersH, Irqs, Owners, Updates;
  }

  /** What ends the transaction of an INVITE in progress (an ACK to a failure, or its end without a message)
      stops the timers of its dialog, ends the invite and destroys its irq. A CANCEL leaves the timers, and a
      request that the stack has discarded leaves everything as it was. */
  lemma CallbackEnds(s: State, t: Txn, irq: Irq, e: IrqEvent)
    requires Inv(s) && t in s.iips && s.iips[t].irq == Some(irq) && s.iips[t].dlg in s.dlgs
    ensures Called(s, t, irq, e, Step(s, IrqEventArrives(irq, e)))
  {
    hide Inv, Called, IrqCallback, IipByIrq;
    TableFacts(s);
    CallbackCalls(s, t, irq, e);
  }

  ghost predicate Called(s: State, t: Txn, irq: Irq, e: IrqEvent, r: State)
    requires t in s.iips && s.iips[t].dlg in s.dlgs
  {
    var d := s.iips[t].dlg;
    && r.stable == s.stable && r.irqs == s.irqs
    && (e == Ack || e == NoSip ==> Quieted(s, r, d))
    && (e == Cancel ==>
          r.dlgs == s.dlgs[d := s.dlgs[d].(inviteIrq := None)] && r.queueG == s.queueG && r.queueH == s.queueH)
    && (e != Discarded ==> Vacated(s.iips, r.iips, s.iips[t].leg) && r.destroyed == s.destroyed + multiset{irq})
    && (e == Discarded ==> r == s)
  }

  lemma CallbackCalls(s: State, t: Txn, irq: Irq, e: IrqEvent)
    requires Inv(s) && Tracked(s) && t in s.iips && s.iips[t].irq == Some(irq) && s.iips[t].dlg in s.dlgs
    ensures Called(s, t, irq, e, IrqCallback(s, irq, e))
  {
    hide Inv, IipClear, ClearSipTimers, Links, Tracked, IipByIrq, Called;
    FoundByIrq(s, t, irq);
    CommuteClear(s, t);
    CalledBoth(s, t, irq, e);
    CalledCancel(s, t, irq);
    CalledDiscarded(s, t, irq);
  }

  lemma CalledBoth(s: State, t: Txn, irq: Irq, e: IrqEvent)
    requires Inv(s) && Tracked(s) && t in s.iips && s.iips[t].irq == Some(irq) && s.iips[t].dlg in s.dlgs
    ensures e == Ack || e == NoSip ==> Called(s, t, irq, e, ClearSipTimers(IipClear(s, t), s.iips[t].dlg))
  {
    hide Inv, IipClear, Tracked, Quieted, Vacated, InviteIrqGone;
    ClearedInvite(s, t);
    DestroysInvite(s, t);
  }

  lemma CalledCancel(s: State, t: Txn, irq: Irq)
    requires Inv(s) && Tracked(s) && t in s.iips && s.iips[t].irq == Some(irq) && s.iips[t].dlg in s.dlgs
    ensures Called(s, t, irq, Cancel, IipClear(s, t))
  {
    hide Inv, IipClear, Tracked, Vacated, InviteIrqGone;
    IipClearVacates(s, t);
    DestroysInvite(s, t);
  }

  lemma CalledDiscarded(s: State, t: Txn, irq: Irq)
    requires t in s.iips && s.iips[t].dlg in s.dlgs
    ensures Called(s, t, irq, Discarded, s)
  {
  }

  lemma DestroysInvite(s: State, t: Txn)
    requires Tracked(s) && t in s.iips && s.iips[t].irq.Some?
    ensures IipClear(s, t).destroyed == s.destroyed + multiset{s.iips[t].irq.value}
  {
  }

  /** The two orders in which the code does this come to the same. */
  lemma CommuteClear(s: State, t: Txn)
    requires Inv(s) && t in s.iips && Tracked(s) && s.iips[t].irq.Some?
    ensures var d := s.iips[t].dlg;
      IipClear(ClearSipTimers(s, d), t) == ClearSipTimers(IipClear(s, t), d)
  {
    hide Inv;
    var d := s.iips[t].dlg;
    assert IipClear(ClearSipTimers(s, d), t).dlgs == ClearSipTimers(IipClear(s, t), d).dlgs;
  }

  // ---------- CANCEL, BYE and timer H end a dialog ----------

  /** No stable dialog has the leg any more, and no other has been touched. */
  ghost predicate Unstable(s: State, r: State, leg: Leg) {
    && r.stable <= s.stable && s.stable <= s.dlgs.Keys
    && forall e :: e in s.stable ==> (e in r.stable <==> s.dlgs[e].leg != leg)
  }

  lemma IipClearLegVacates(s: State, leg: Leg)
    requires Inv(s) && Tracked(s)
    ensures var r := IipClearLeg(s, leg);
      && Vacated(s.iips, r.iips, leg) && InviteIrqGone(s, r, leg)
      && r == s.(iips := r.iips, dlgs := r.dlgs, destroyed := r.destroyed)
    ensures var r := IipClearLeg(s, leg);
      || r.dlgs == s.dlgs
      || exists d :: Finds(s, leg, d) && d in s.dlgs && r.dlgs == s.dlgs[d := s.dlgs[d].(inviteIrq := None)]
  {
    var t := IipByLeg(s.iips, leg);
    hide Inv, IipClear, Vacated, InviteIrqGone;
    if t.Some? {
      IipClearVacates(s, t.value);
    } else {
      NoneOnLeg(s, leg);
      NoneGone(s, s, leg);
    }
  }

  /** The dialog is over: its timers, its invite in progress and its entry among the stable ones are gone, and
      nothing of any other dialog. */
  ghost predicate Over(s: State, r: State, d: SipDialog, leg: Leg) {
    Quieted(s, r, d) && Vacated(s.iips, r.iips, leg) && Unstable(s, r, leg)
  }

  lemma SdClears(s: State, leg: Leg)
    requires Inv(s) && Tracked(s)
    ensures Unstable(s, SdClearLeg(s, leg), leg) && Inv(SdClearLeg(s, leg))
  {
    SdClearKeeps(s, SdClearLeg(s, leg));
    hide Inv;
  }

  /** The dialog that a leg finds is the only one with that leg. */
  lemma OneDialogPerLeg(s: State, leg: Leg, d: SipDialog, e: SipDialog)
    requires Inv(s) && d in s.dlgs && s.dlgs[d].leg == leg && Finds(s, leg, e)
    ensures e == d
  {
    hide InviteIrqs, TimersG, TimersH, Irqs, Owners, Updates;
  }

  lemma TornDown(s: State, d: SipDialog, leg: Leg)
    requires Inv(s) && Tracked(s) && d in s.dlgs && s.dlgs[d].leg == leg
    ensures var r := TearDown(s, d, leg);
      && Over(s, r, d, leg) && InviteIrqGone(s, r, leg)
      && r == s.(iips := r.iips, dlgs := r.dlgs, stable := r.stable, queueG := r.queueG, queueH := r.queueH,
                 destroyed := r.destroyed)
  {
    var s1 := ClearSipTimers(s, d);
    var s2 := SdClearLeg(s1, leg);
    ClearSipTimersKeeps(s, d);
    ClearSipTimersQuiets(s, d);
    SdClears(s1, leg);
    assert Unstable(s, s2, leg) && s2.dlgs[d].inviteIrq.None?;
    TornDownInvite(s, s2, d, leg);
  }

  lemma TornDownInvite(s: State, s2: State, d: SipDialog, leg: Leg)
    requires Inv(s2) && Tracked(s2) && Quieted(s, s2, d) && s2.dlgs[d].leg == leg
    requires s2 == s.(dlgs := s2.dlgs, stable := s2.stable, queueG := s2.queueG, queueH := s2.queueH)
    requires Unstable(s, s2, leg)
    ensures var r := IipClearLeg(s2, leg);
      && Over(s, r, d, leg) && InviteIrqGone(s, r, leg)
      && r == s.(iips := r.iips, dlgs := r.dlgs, stable := r.stable, queueG := r.queueG, queueH := r.queueH,
                 destroyed := r.destroyed)
  {
    IipClearLegVacates(s2, leg);
    var r := IipClearLeg(s2, leg);
    assert r.dlgs == s2.dlgs || r.dlgs == s2.dlgs[d := s2.dlgs[d].(inviteIrq := None)] by {
      if r.dlgs != s2.dlgs {
        var e :| Finds(s2, leg, e) && e in s2.dlgs && r.dlgs == s2.dlgs[e := s2.dlgs[e].(inviteIrq := None)];
        OneDialogPerLeg(s2, leg, d, e);
      }
    }
    hide Inv, IipClearLeg, Finds, Tracked, Vacated;
    QuietedBefore(s, s2, r, d);
    assert InviteIrqGone(s, r, leg) by { SameInvites(s, s2, r, leg); }
  }

  lemma SameInvites(s: State, s2: State, r: State, leg: Leg)
    requires s2.iips == s.iips && s2.destroyed == s.destroyed && InviteIrqGone(s2, r, leg)
    ensures InviteIrqGone(s, r, leg)
  {
    forall i: Irq
      ensures InviteIrqOn(s2, leg, i) <==> InviteIrqOn(s, leg, i)
    {
    }
  }

  /** A CANCEL whose leg finds a dialog ends it, unless it is for an INVITE that an application still has. */
  lemma CancelEnds(s: State, leg: Leg, irq: Irq, d: SipDialog)
    requires Inv(s) && Enabled(s, CancelArrives(leg, irq, false)) && Finds(s, leg, d)
    ensures var r := Step(s, CancelArrives(leg, irq, false));
      Over(s, r, d, leg) && InviteIrqGone(s, r, leg) && r.irqs == s.irqs
    ensures Step(s, CancelArrives(leg, irq, true)) == s.(seen := s.seen + {irq})
  {
    TableFacts(s);
    CancelTearsDown(s, leg, irq, d);
    hide Inv, Finds, Over, InviteIrqGone, CancelRequest;
  }

  lemma CancelTearsDown(s: State, leg: Leg, irq: Irq, d: SipDialog)
    requires Inv(s) && FreshIrq(s, irq) && Tracked(s) && Finds(s, leg, d)
    ensures var r := CancelRequest(s, leg, irq, false);
      Over(s, r, d, leg) && InviteIrqGone(s, r, leg) && r.irqs == s.irqs
    ensures CancelRequest(s, leg, irq, true) == Arrive(s, irq)
  {
    var s0 := Arrive(s, irq);
    ArriveKeeps(s, irq);
    TableFacts(s0);
    FoundByLeg(s, leg, d);
    assert Finds(s0, leg, d);
    FoundByLeg(s0, leg, d);
    hide Inv, Tracked, TearDown, Finds, InviteIrqGone, Over, DialogByLeg;
    TornDown(s0, d, leg);
    var r := TearDown(s0, d, leg);
    OverAfterArrival(s, irq, r, d, leg);
    SameInvites(s, s0, r, leg);
  }

  lemma OverAfterArrival(s: State, irq: Irq, r: State, d: SipDialog, leg: Leg)
    requires Over(Arrive(s, irq), r, d, leg)
    ensures Over(s, r, d, leg)
  {
    hide Vacated;
    QuietedLater(s, Arrive(s, irq), r, d);
    hide Quieted;
  }

  /** Timer H ends its dialog: nobody ever sent an ACK. */
  lemma TimerHEnds(s: State, h: Timer)
    requires Inv(s) && Enabled(s, TimerH(h))
    ensures var d := s.queueH[h]; var r := Step(s, TimerH(h));
      Over(s, r, d, s.dlgs[d].leg) && InviteIrqGone(s, r, s.dlgs[d].leg) && r.irqs == s.irqs
  {
    TableFacts(s);
    TimerHTearsDown(s, h);
    TornDown(s, s.queueH[h], s.dlgs[s.queueH[h]].leg);
    hide Inv, TearDown, TimerHFires, Over, InviteIrqGone;
  }

  lemma TimerHTearsDown(s: State, h: Timer)
    requires Inv(s) && Tracked(s) && h in s.queueH && s.queueH[h] in s.dlgs
    ensures var d := s.queueH[h]; TimerHFires(s, h) == TearDown(s, d, s.dlgs[d].leg)
  {
    TimerHFacts(s, h);
    hide Inv, ClearSipTimers, AfterTimerH, IipClearLeg, SdClearLeg, Tracked;
    ClearsCommute(AfterTimerH(s, h), s.dlgs[s.queueH[h]].leg) by { TableFacts(ClearSipTimers(s, s.queueH[h])); }
  }

  lemma ClearsCommute(s: State, leg: Leg)
    requires Tracked(s)
    ensures SdClearLeg(IipClearLeg(s, leg), leg) == IipClearLeg(SdClearLeg(s, leg), leg)
  {
    var t := IipByLeg(s.iips, leg);
    if t.Some? {
      SameLegs(s, t.value);
      ClearKeepsStable(s, t.value, SdClearLeg(s, leg).stable);
      hide IipClear, Tracked;
      assert SdClearLeg(IipClear(s, t.value), leg).stable == SdClearLeg(s, leg).stable;
    }
  }

  lemma SameLegs(s: State, t: Txn)
    requires Tracked(s) && t in s.iips
    ensures var r := IipClear(s, t);
      r.dlgs.Keys == s.dlgs.Keys && r.stable == s.stable && forall e :: e in s.dlgs ==> r.dlgs[e].leg == s.dlgs[e].leg
  {
  }

  lemma ClearKeepsStable(s: State, t: Txn, stable: set<SipDialog>)
    requires Tracked(s) && t in s.iips && stable <= s.stable
    ensures Tracked(s.(stable := stable)) && IipClear(s.(stable := stable), t) == IipClear(s, t).(stable := stable)
  {
  }

  // ---------- BYE, and the NOTIFY that ends a subscription ----------

  predicate EndsIt(s: State, d: SipDialog, m: Method, routing: Routing)
    requires d in s.dlgs
  {
    m == Bye_ || (m == NotifyTerminated_ && routing.routed && !s.dlgs[d].inviteDialog)
  }

  lemma EndDialogTearsDown(s: State, d: SipDialog, leg: Leg, t: Txn, routed: bool)
    requires Inv(s) && Tracked(s) && d in s.dlgs && s.dlgs[d].leg == leg
    ensures var r := TearDown(s, d, leg);
      EndDialog(s, d, leg, t, routed) == if routed then r else TakeIrq(r, t)
  {
    hide Inv, SdClearLeg, IipClear, TakeIrq;
    InviteOfDialog(s, d, leg);
    var s1 := SdClearLeg(ClearSipTimers(s, d), leg);
    assert s1.iips == s.iips;
    TakenFrame(s1, t);
    if s.dlgs[d].txn in s.iips {
      TakeIrqCommutes(s1, s.dlgs[d].txn, t);
    }
  }

  lemma InviteOfDialog(s: State, d: SipDialog, leg: Leg)
    requires Inv(s) && d in s.dlgs && s.dlgs[d].leg == leg
    ensures var t := IipByLeg(s.iips, leg);
      if t.Some? then t.value == s.dlgs[d].txn else s.dlgs[d].txn !in s.iips
  {
    hide InviteIrqs, TimersG, TimersH, Irqs, Owners, Updates;
  }

  lemma TakenFrame(s: State, t: Txn)
    ensures var r := TakeIrq(s, t);
      r == s.(irqs := r.irqs, destroyed := r.destroyed) && (Tracked(s) ==> Tracked(r))
  {
  }

  lemma TakeIrqCommutes(s: State, u: Txn, t: Txn)
    requires Tracked(s) && u in s.iips
    ensures Tracked(TakeIrq(s, t)) && IipClear(TakeIrq(s, t), u) == TakeIrq(IipClear(s, u), t)
  {
    hide Tracked, WithoutLeg, TakeIrq, IipClear;
    TakenFrame(s, t);
    Taken(s, t);
    Taken(IipClear(s, u), t);
    ClearedIs(s, u);
    ClearedIs(TakeIrq(s, t), u);
  }

  lemma Taken(s: State, t: Txn)
    ensures TakeIrq(s, t) == s.(irqs := s.irqs - {t},
                                destroyed := if t in s.irqs then s.destroyed + multiset{s.irqs[t]} else s.destroyed)
  {
    if t !in s.irqs {
      assert s.irqs - {t} == s.irqs;
    }
  }

  lemma ClearedIs(s: State, u: Txn)
    requires Tracked(s) && u in s.iips
    ensures var iip := s.iips[u]; var rec := s.dlgs[iip.dlg];
      IipClear(s, u) == s.(iips := WithoutLeg(s.iips, iip.leg),
        dlgs := if iip.irq.Some? then s.dlgs[iip.dlg := rec.(inviteIrq := None)] else s.dlgs,
        destroyed := if iip.irq.Some? then s.destroyed + multiset{iip.irq.value} else s.destroyed)
  {
  }

  /** A BYE whose leg finds a dialog ends it, and so does the NOTIFY that ends a subscription, if a client takes
      it. Its irq waits for the client's answer, or is destroyed when there is no client. */
  lemma ByeEnds(s: State, leg: Leg, irq: Irq, t: Txn, m: Method, routing: Routing, d: SipDialog)
    requires Inv(s) && Enabled(s, RequestArrives(leg, irq, t, m, routing)) && Finds(s, leg, d) && d in s.dlgs
    requires EndsIt(s, d, m, routing)
    ensures
      var r := Step(s, RequestArrives(leg, irq, t, m, routing));
      var s1 := if m == Bye_ then s else s.(dlgs := s.dlgs[d := s.dlgs[d].(pending := s.dlgs[d].pending + {t})]);
      && Over(s1, r, d, leg)
      && r.irqs == (if routing.routed then s.irqs[t := irq] else s.irqs)
      && (forall i :: i != irq ==> r.destroyed[i] == s.destroyed[i] + if InviteIrqOn(s, leg, i) then 1 else 0)
      && r.destroyed[irq] == if routing.routed then 0 else 1
  {
    TableFacts(s);
    ByeTearsDown(s, leg, irq, t, m, routing, d);
    hide Inv, Finds, Over, OtherRequest;
  }

  lemma ByeTearsDown(s: State, leg: Leg, irq: Irq, t: Txn, m: Method, routing: Routing, d: SipDialog)
    requires Inv(s) && Tracked(s) && FreshIrq(s, irq) && FreshTxn(s, t) && Finds(s, leg, d) && d in s.dlgs
    requires EndsIt(s, d, m, routing)
    ensures
      var r := OtherRequest(s, leg, irq, t, m, routing);
      var s1 := if m == Bye_ then s else s.(dlgs := s.dlgs[d := s.dlgs[d].(pending := s.dlgs[d].pending + {t})]);
      && Over(s1, r, d, leg)
      && r.irqs == (if routing.routed then s.irqs[t := irq] else s.irqs)
      && (forall i :: i != irq ==> r.destroyed[i] == s.destroyed[i] + if InviteIrqOn(s, leg, i) then 1 else 0)
      && r.destroyed[irq] == if routing.routed then 0 else 1
  {
    var s0 := Arrive(s, irq);
    var s2 := Registered(s0, d, irq, t, m);
    FoundRequest(s, leg, irq, t, m, routing, d);
    ArriveKeeps(s, irq);
    RegisterForKeeps(s0, d, t, irq, m);
    hide Inv, Finds, EndDialog, TearDown, OtherRequest, RequestFor, InviteIrqGone, Over;
    TableFacts(s2);
    ByeIsEnd(s0, d, leg, irq, t, m, routing);
    EndDialogTearsDown(s2, d, leg, t, routing.routed);
    TornDown(s2, d, leg);
    ByeLeaves(s, irq, t, m, routing, d, leg, TearDown(s2, d, leg));
  }

  lemma ByeLeaves(s: State, irq: Irq, t: Txn, m: Method, routing: Routing, d: SipDialog, leg: Leg, r2: State)
    requires Inv(s) && FreshIrq(s, irq) && FreshTxn(s, t) && d in s.dlgs
    requires var s2 := Registered(Arrive(s, irq), d, irq, t, m);
      Over(s2, r2, d, leg) && InviteIrqGone(s2, r2, leg) && r2.irqs == s2.irqs
    ensures
      var r := if routing.routed then r2 else TakeIrq(r2, t);
      var s1 := if m == Bye_ then s else s.(dlgs := s.dlgs[d := s.dlgs[d].(pending := s.dlgs[d].pending + {t})]);
      && Over(s1, r, d, leg)
      && r.irqs == (if routing.routed then s.irqs[t := irq] else s.irqs)
      && (forall i :: i != irq ==> r.destroyed[i] == s.destroyed[i] + if InviteIrqOn(s, leg, i) then 1 else 0)
      && r.destroyed[irq] == if routing.routed then 0 else 1
  {
    var s2 := Registered(Arrive(s, irq), d, irq, t, m);
    var r := if routing.routed then r2 else TakeIrq(r2, t);
    var s1 := if m == Bye_ then s else s.(dlgs := s.dlgs[d := s.dlgs[d].(pending := s.dlgs[d].pending + {t})]);
    assert t !in s.irqs;
    hide Inv, Over, InviteIrqOn, InviteIrqGone, FreshTxn;
    assert s1 == s2.(irqs := s1.irqs, owner := s1.owner, seen := s1.seen);
    Unrelated(s, s2, r2, d, leg, irq);
    OverOfSame(s2, s1, r2, r, d, leg);
    GoneIs(s, r2, leg);
    hide Registered;
    IrqTaken(s.irqs, r2, t, irq);
  }

  lemma IrqTaken(irqs: map<Txn, Irq>, r: State, t: Txn, irq: Irq)
    requires r.irqs == irqs[t := irq] && t !in irqs
    ensures TakeIrq(r, t).irqs == irqs && TakeIrq(r, t).destroyed == r.destroyed + multiset{irq}
  {
  }

  lemma GoneIs(s: State, r: State, leg: Leg)
    requires InviteIrqGone(s, r, leg)
    ensures forall i :: r.destroyed[i] == s.destroyed[i] + if InviteIrqOn(s, leg, i) then 1 else 0
  {
    hide InviteIrqOn;
  }

  /** The state that a BYE or NOTIFY ends the dialog in: registered, and pending unless it is a BYE. */
  ghost function Registered(s: State, d: SipDialog, irq: Irq, t: Txn, m: Method): State
    requires d in s.dlgs
  {
    RegisterIrq(if m.Bye_? then s else AddPending(s, d, t), t, irq, if m.Bye_? then Bye else Of(d))
  }

  lemma ByeIsEnd(s: State, d: SipDialog, leg: Leg, irq: Irq, t: Txn, m: Method, routing: Routing)
    requires Tracked(s) && d in s.dlgs && EndsIt(s, d, m, routing) && Tracked(Registered(s, d, irq, t, m))
    ensures RequestFor(s, d, leg, irq, t, m, routing)
            == EndDialog(Registered(s, d, irq, t, m), d, leg, t, routing.routed)
  {
    hide EndDialog, Tracked;
  }

  lemma FoundRequest(s: State, leg: Leg, irq: Irq, t: Txn, m: Method, routing: Routing, d: SipDialog)
    requires Inv(s) && Tracked(s) && Finds(s, leg, d)
    ensures Tracked(Arrive(s, irq)) && d in s.dlgs && s.dlgs[d].leg == leg
    ensures OtherRequest(s, leg, irq, t, m, routing) == RequestFor(Arrive(s, irq), d, leg, irq, t, m, routing)
  {
    FoundByLeg(s, leg, d);
    hide Inv, Finds, RequestFor;
  }

  /** What tearing down does to the irqs. */
  lemma Unrelated(s: State, s2: State, r: State, d: SipDialog, leg: Leg, irq: Irq)
    requires InviteIrqGone(s2, r, leg) && s2.iips == s.iips && s2.destroyed == s.destroyed
    requires Inv(s) && FreshIrq(s, irq)
    ensures InviteIrqGone(s, r, leg) && r.destroyed[irq] == 0
  {
    SameInvites(s, s2, r, leg);
    hide Linked, InviteIrqs, TimersG, TimersH, Owners, Updates;
    assert !InviteIrqOn(s, leg, irq) && irq !in s.destroyed;
  }

  lemma OverOfSame(s: State, s1: State, r: State, r1: State, d: SipDialog, leg: Leg)
    requires Over(s, r, d, leg) && s1 == s.(irqs := s1.irqs, owner := s1.owner, seen := s1.seen)
    requires r1.dlgs == r.dlgs && r1.queueG == r.queueG && r1.queueH == r.queueH && r1.iips == r.iips
    requires r1.stable == r.stable
    ensures Over(s1, r1, d, leg)
  {
  }

  // ---------- the application answers ----------

  /** Timer G's interval is set only by an answer, and with timer G. */
  ghost predicate Quiet(dlgs: Dlgs) {
    forall d :: d in dlgs ==>
      && (dlgs[d].durationG == 0 || (dlgs[d].uas && dlgs[d].status >= 200))
      && (dlgs[d].timerG.Some? ==> dlgs[d].durationG > 0)
  }

  /** This answer goes out as a 200 to an INVITE that has had no final response and whose dialog is not
      stable yet. */
  ghost predicate Accepts(s: State, t: Txn, a: Answer, setup: Setup) {
    && t !in s.irqs && a.code == 200 && !a.subscribe && a.transportOk && a.sendOk
    && if t in s.iips then
         var d := s.iips[t].dlg;
         && d in s.dlgs && s.dlgs[d].status < 200 && !(a.cseqUpdate && s.dlgs[d].updateIrq.Some?)
         && forall e :: e in s.stable && e in s.dlgs ==> s.dlgs[e].dialogId != s.dlgs[d].dialogId
       else
         setup.NewDialogFor? && forall e :: e in s.stable && e in s.dlgs ==> s.dlgs[e].dialogId != setup.rec.dialogId
  }

  ghost function Answering(s: State, t: Txn, setup: Setup): SipDialog
    requires t in s.iips || setup.NewDialogFor?
  {
    if t in s.iips then s.iips[t].dlg else setup.dlg
  }

  /** A new handle, with its entry unless that was lost. */
  ghost predicate Started(before: map<Timer, SipDialog>, after: map<Timer, SipDialog>, handle: Option<Timer>,
                          d: SipDialog, lost: bool) {
    && handle.Some? && handle.value !in before
    && after == if lost then before else before[handle.value := d]
  }

  /** What such an answer starts: timer G exactly over a datagram transport, timer H always, and the irq is
      remembered for them. The dialog is stable from then on. */
  ghost predicate AnswerStarts(s: State, r: State, t: Txn, d: SipDialog, a: Answer) {
    && d in r.dlgs && t in r.iips && r.iips[t].dlg == d && r.iips[t].irq.Some?
    && r.dlgs[d].status == 200 && r.dlgs[d].inviteIrq == r.iips[t].irq
    && (if a.datagram then Started(s.queueG, r.queueG, r.dlgs[d].timerG, d, a.lostG)
        else r.dlgs[d].timerG.None? && r.queueG == s.queueG)
    && Started(s.queueH, r.queueH, r.dlgs[d].timerH, d, a.lostH)
    && r.dlgs[d].durationG == (if a.datagram then 500 else 0)
    && r.stable == s.stable + {d} && r.irqs == s.irqs && r.destroyed == s.destroyed
    && forall e :: e in s.dlgs && e != d ==> e in r.dlgs && r.dlgs[e] == s.dlgs[e]
  }

  lemma SentStarts(s: State, t: Txn, a: Answer)
    requires Inv(s) && Tracked(s) && Quiet(s.dlgs) && t in s.iips && s.iips[t].irq.Some? && s.iips[t].dlg in s.dlgs
    requires s.dlgs[s.iips[t].dlg].status < 200 && a.code == 200 && !a.subscribe && a.transportOk && a.sendOk
    requires forall e :: e in s.stable && e in s.dlgs ==> s.dlgs[e].dialogId != s.dlgs[s.iips[t].dlg].dialogId
    ensures AnswerStarts(s, SendAnswer(s, t, a), t, s.iips[t].dlg, a)
  {
    var d := s.iips[t].dlg;
    var s1 := SetDlg(s, d, s.dlgs[d].(status := 200));
    IipFacts(s, t);
    DialogFacts(s, d);
    NextIsNew(s);
    BecomesStable(s, s1, d, 200);
    AnsweredStarts(s, s1, t, a);
    hide Inv, Tracked, Answered, AnswerStarts;
  }

  lemma AnsweredStarts(s: State, s1: State, t: Txn, a: Answer)
    requires Tracked(s1) && t in s.iips && s.iips[t].irq.Some? && s.iips[t].dlg in s.dlgs
    requires var d := s.iips[t].dlg;
      && s1 == SetDlg(s, d, s.dlgs[d].(status := 200)) && SdInsert(s1, d) == s1.(stable := s.stable + {d})
      && s.dlgs[d].timerG.None? && s.dlgs[d].timerH.None? && s.dlgs[d].durationG == 0
    requires s.nextTimer !in s.queueG && s.nextTimer !in s.queueH
    requires s.nextTimer + 1 !in s.queueG && s.nextTimer + 1 !in s.queueH
    ensures AnswerStarts(s, Answered(s1, s.iips[t].dlg, s.iips[t].irq.value, a), t, s.iips[t].dlg, a)
  {
    hide SdInsert, Tracked;
  }

  lemma NextIsNew(s: State)
    requires Inv(s)
    ensures s.nextTimer !in s.queueG && s.nextTimer !in s.queueH
    ensures s.nextTimer + 1 !in s.queueG && s.nextTimer + 1 !in s.queueH
  {
  }

  lemma BecomesStable(s: State, s1: State, d: SipDialog, code: nat)
    requires Inv(s) && Tracked(s) && d in s.dlgs && s.dlgs[d].uas && s.dlgs[d].status < 200
    requires s1 == SetDlg(s, d, s.dlgs[d].(status := code)) && Tracked(s1)
    requires forall e :: e in s.stable && e in s.dlgs ==> s.dlgs[e].dialogId != s.dlgs[d].dialogId
    ensures SdInsert(s1, d) == s1.(stable := s.stable + {d})
  {
    hide InviteIrqs, TimersG, TimersH, Irqs, Owners, Updates;
  }

  /** A 200 OK to an INVITE starts its timers, whether the request was still pending or in progress. */
  lemma AcceptStarts(s: State, t: Txn, a: Answer, setup: Setup, found: Option<SipDialog>)
    requires Inv(s) && Quiet(s.dlgs) && Enabled(s, AppAnswers(t, a, setup, found)) && Accepts(s, t, a, setup)
    ensures AnswerStarts(s, Step(s, AppAnswers(t, a, setup, found)), t, Answering(s, t, setup), a)
  {
    hide Inv, Quiet, Respond, AnswerStarts, Accepts, Answering;
    TableFacts(s);
    ReplyStarts(s, t, a, setup, found);
  }

  lemma ReplyStarts(s: State, t: Txn, a: Answer, setup: Setup, found: Option<SipDialog>)
    requires Inv(s) && Tracked(s) && Links(s) && Quiet(s.dlgs) && SetupOk(s, t, setup) && AnswerOk(s, t, a)
    requires (found.Some? ==> found.value in s.dlgs) && Accepts(s, t, a, setup)
    ensures AnswerStarts(s, Respond(s, t, a, setup, found), t, Answering(s, t, setup), a)
  {
    hide Inv, AnswerInvite, AnswerStarts, AddIncomingInvite, Quiet;
    if t in s.iips {
      InviteStarts(s, t, a);
    } else {
      AddIncomingInviteKeeps(s, t, setup);
      NewDialogAnswerOk(s, t, setup, a);
      var s1 := AddIncomingInvite(s, t, setup);
      TableFacts(s1);
      NewIsUnanswered(s, t, a, setup);
      InviteStarts(s1, t, a);
      StartsFromNew(s, t, setup, AnswerInvite(s1, t, a), a);
    }
  }

  lemma InviteStarts(s: State, t: Txn, a: Answer)
    requires Inv(s) && Tracked(s) && Quiet(s.dlgs) && t in s.iips && InviteAnswerOk(s, t, a)
    requires Accepts(s, t, a, Nothing)
    ensures s.iips[t].irq.Some? && AnswerStarts(s, AnswerInvite(s, t, a), t, s.iips[t].dlg, a)
  {
    H.MayAnswer(s, t, a);
    SentStarts(s, t, a);
    hide Inv, AnswerStarts, Quiet, SendAnswer, Tracked;
  }

  lemma NewIsUnanswered(s: State, t: Txn, a: Answer, setup: Setup)
    requires Inv(s) && Tracked(s) && Quiet(s.dlgs) && t !in s.iips && setup.NewDialogFor? && SetupOk(s, t, setup)
    requires Accepts(s, t, a, setup)
    ensures var r := AddIncomingInvite(s, t, setup);
      Quiet(r.dlgs) && t in r.iips && r.iips[t].dlg == setup.dlg && Accepts(r, t, a, Nothing)
  {
    hide InviteIrqs, TimersG, TimersH, Irqs, Owners, Updates;
  }

  lemma StartsFromNew(s: State, t: Txn, setup: Setup, r: State, a: Answer)
    requires t !in s.iips && setup.NewDialogFor? && setup.dlg !in s.dlgs
    requires AnswerStarts(AddIncomingInvite(s, t, setup), r, t, setup.dlg, a)
    ensures AnswerStarts(s, r, t, setup.dlg, a)
  {
  }

  // ---------- any other answer ----------

  /** No timer has been started or stopped. */
  ghost predicate SameTimers(s: State, r: State) {
    && r.queueG == s.queueG && r.queueH == s.queueH
    && forall e :: e in r.dlgs ==>
         if e in s.dlgs then
           && r.dlgs[e].timerG == s.dlgs[e].timerG && r.dlgs[e].timerH == s.dlgs[e].timerH
           && r.dlgs[e].durationG == s.dlgs[e].durationG
         else r.dlgs[e].timerG.None? && r.dlgs[e].timerH.None? && r.dlgs[e].durationG == 0
  }

  lemma SameTimersThen(s: State, s1: State, r: State)
    requires SameTimers(s, s1) && SameTimers(s1, r) && s.dlgs.Keys <= s1.dlgs.Keys
    ensures SameTimers(s, r)
  {
  }

  /** No other answer starts or stops a timer. */
  lemma OthersStartNone(s: State, t: Txn, a: Answer, setup: Setup, found: Option<SipDialog>)
    requires Inv(s) && Enabled(s, AppAnswers(t, a, setup, found)) && !Accepts(s, t, a, setup)
    ensures SameTimers(s, Step(s, AppAnswers(t, a, setup, found)))
  {
    hide Inv, Respond, SameTimers, Accepts;
    TableFacts(s);
    ReplyStartsNone(s, t, a, setup, found);
  }

  lemma ReplyStartsNone(s: State, t: Txn, a: Answer, setup: Setup, found: Option<SipDialog>)
    requires Inv(s) && Tracked(s) && Links(s) && SetupOk(s, t, setup) && AnswerOk(s, t, a)
    requires (found.Some? ==> found.value in s.dlgs) && !Accepts(s, t, a, setup)
    ensures SameTimers(s, Respond(s, t, a, setup, found))
  {
    hide Inv, AnswerInvite, SameTimers, AddIncomingInvite, AnswerRegistered;
    if t in s.irqs {
      RegisteredStartsNone(s, t, found);
    } else if t in s.iips {
      InviteElse(s, t, a);
    } else if setup.NewDialogFor? {
      AddIncomingInviteKeeps(s, t, setup);
      NewDialogAnswerOk(s, t, setup, a);
      var s1 := AddIncomingInvite(s, t, setup);
      TableFacts(s1);
      NewNotAccepted(s, t, a, setup);
      InviteElse(s1, t, a);
      SameTimersThen(s, s1, AnswerInvite(s1, t, a));
    } else {
      NoneStarted(s, a, setup);
    }
  }

  lemma NoneStarted(s: State, a: Answer, setup: Setup)
    ensures SameTimers(s, s) && (setup.PlainRequest? ==> SameTimers(s, AnswerPlain(s, setup.irq)))
  {
  }

  /** An answer to a request that is registered takes it out of the table and destroys its irq once. */
  lemma RegisteredStartsNone(s: State, t: Txn, found: Option<SipDialog>)
    requires t in s.irqs && (found.Some? ==> found.value in s.dlgs)
    ensures var r := AnswerRegistered(s, t, found);
      && SameTimers(s, r) && r.iips == s.iips && r.stable == s.stable && r.irqs == s.irqs - {t}
      && r.destroyed == s.destroyed + multiset{s.irqs[t]}
      && (found.Some? ==> t !in r.dlgs[found.value].pending)
  {
  }

  lemma AnswerTakesIrq(s: State, t: Txn, a: Answer, setup: Setup, found: Option<SipDialog>)
    requires Inv(s) && Enabled(s, AppAnswers(t, a, setup, found)) && t in s.irqs
    ensures var r := Step(s, AppAnswers(t, a, setup, found));
      && SameTimers(s, r) && r.iips == s.iips && r.stable == s.stable && r.irqs == s.irqs - {t}
      && r.destroyed == s.destroyed + multiset{s.irqs[t]} && r.destroyed[s.irqs[t]] == 1
      && (found.Some? ==> t !in r.dlgs[found.value].pending)
  {
    RegisteredLive(s);
    TableFacts(s);
    hide Inv, AnswerRegistered, SameTimers, SetupOk, AnswerOk;
    RegisteredStartsNone(s, t, found);
  }

  /** The INVITE may be answered: no final response went out, the transport is there, and no dialog with its
      id is stable. */
  ghost predicate Open(s: State, t: Txn, a: Answer)
    requires t in s.iips && s.iips[t].dlg in s.dlgs
  {
    var rec := s.dlgs[s.iips[t].dlg];
    rec.status < 200 && a.transportOk && forall e :: e in s.stable && e in s.dlgs ==> s.dlgs[e].dialogId != rec.dialogId
  }

  /** What an answer other than such a 200 does to an INVITE or SUBSCRIBE in progress. A held UPDATE is
      answered in its place if the answer is for an UPDATE. Otherwise an answer that may go out leaves its
      status; a SUBSCRIBE is over with it, and its dialog stable after a 200 or 202. */
  ghost predicate AnsweredElse(s: State, r: State, t: Txn, a: Answer)
    requires t in s.iips && s.iips[t].dlg in s.dlgs
  {
    var d := s.iips[t].dlg;
    var rec := s.dlgs[d];
    if a.cseqUpdate && rec.updateIrq.Some? then
      && r.iips == s.iips && r.stable == s.stable && r.irqs == s.irqs - {rec.updateTxn}
      && r.destroyed == s.destroyed + multiset{rec.updateIrq.value}
      && r.dlgs == s.dlgs[d := rec.(updateIrq := None, updateTxn := 0, pending := rec.pending - {rec.updateTxn})]
    else if !Open(s, t, a) then r == s
    else
      && d in r.dlgs && r.dlgs[d].status == a.code && r.irqs == s.irqs
      && (if a.subscribe && a.sendOk then
            && Vacated(s.iips, r.iips, s.iips[t].leg) && s.iips[t].irq.Some?
            && r.destroyed == s.destroyed + multiset{s.iips[t].irq.value}
            && r.stable == if a.code == 200 || a.code == 202 then s.stable + {d} else s.stable
          else r.iips == s.iips && r.destroyed == s.destroyed && r.stable == s.stable)
  }

  lemma InviteElse(s: State, t: Txn, a: Answer)
    requires Inv(s) && Tracked(s) && t in s.iips && InviteAnswerOk(s, t, a) && t !in s.irqs
    requires !Accepts(s, t, a, Nothing)
    ensures s.iips[t].dlg in s.dlgs && AnsweredElse(s, AnswerInvite(s, t, a), t, a)
    ensures SameTimers(s, AnswerInvite(s, t, a))
  {
    H.MayAnswer(s, t, a);
    var d := s.iips[t].dlg;
    if a.cseqUpdate && s.dlgs[d].updateIrq.Some? {
      UpdateAnswered(s, d);
    } else if Open(s, t, a) {
      SentElse(s, t, a);
    } else {
      NoneStarted(s, a, Nothing);
    }
    hide Inv, SameTimers, SendAnswer, Vacated, AnswerUpdate;
  }

  lemma UpdateAnswered(s: State, d: SipDialog)
    requires d in s.dlgs && s.dlgs[d].updateIrq.Some?
    ensures var r := AnswerUpdate(s, d); var rec := s.dlgs[d];
      && SameTimers(s, r)
      && r == s.(irqs := s.irqs - {rec.updateTxn}, destroyed := s.destroyed + multiset{rec.updateIrq.value},
                 dlgs := s.dlgs[d := rec.(updateIrq := None, updateTxn := 0, pending := rec.pending - {rec.updateTxn})])
  {
  }

  lemma SentElse(s: State, t: Txn, a: Answer)
    requires Inv(s) && Tracked(s) && t in s.iips && s.iips[t].dlg in s.dlgs && s.iips[t].irq.Some? && Open(s, t, a)
    requires a.code != 200 || a.subscribe || !a.sendOk
    ensures SameTimers(s, SendAnswer(s, t, a))
    ensures var d := s.iips[t].dlg; var r := SendAnswer(s, t, a);
      && d in r.dlgs && r.dlgs[d].status == a.code && r.irqs == s.irqs
      && (if a.subscribe && a.sendOk then
            && Vacated(s.iips, r.iips, s.iips[t].leg)
            && r.destroyed == s.destroyed + multiset{s.iips[t].irq.value}
            && r.stable == if a.code == 200 || a.code == 202 then s.stable + {d} else s.stable
          else r.iips == s.iips && r.destroyed == s.destroyed && r.stable == s.stable)
  {
    var d := s.iips[t].dlg;
    var s1 := SetDlg(s, d, s.dlgs[d].(status := a.code));
    SendAnswerFacts(s, t, a);
    hide Inv, IipClear, SdInsert, Vacated, Open, Tracked;
    BecomesStable(s, s1, d, a.code);
    if a.subscribe && a.sendOk {
      SubscribeEnds(s, if a.code == 200 || a.code == 202 then SdInsert(s1, d) else s1, t, a.code);
    }
  }

  lemma SendAnswerFacts(s: State, t: Txn, a: Answer)
    requires Inv(s) && t in s.iips && s.iips[t].dlg in s.dlgs && s.dlgs[s.iips[t].dlg].status < 200
    requires s.iips[t].irq.Some?
    ensures var d := s.iips[t].dlg;
      && s.dlgs[d].uas && Inv(SetDlg(s, d, s.dlgs[d].(status := a.code)))
      && Tracked(SetDlg(s, d, s.dlgs[d].(status := a.code)))
  {
    IipFacts(s, t);
    SendAnswerKeeps(s, t, a);
    TableFacts(SetDlg(s, s.iips[t].dlg, s.dlgs[s.iips[t].dlg].(status := a.code)));
    hide Inv;
  }

  lemma SubscribeEnds(s: State, s2: State, t: Txn, code: nat)
    requires Tracked(s2) && t in s.iips && s.iips[t].dlg in s.dlgs && s.iips[t].irq.Some?
    requires s2 == SetDlg(s, s.iips[t].dlg, s.dlgs[s.iips[t].dlg].(status := code)).(stable := s2.stable)
    ensures var d := s.iips[t].dlg; var r := IipClear(s2, t);
      && SameTimers(s, r) && d in r.dlgs && r.dlgs[d].status == code && r.irqs == s.irqs
      && Vacated(s.iips, r.iips, s.iips[t].leg)
      && r.destroyed == s.destroyed + multiset{s.iips[t].irq.value} && r.stable == s2.stable
  {
    hide Tracked;
  }

  lemma NewNotAccepted(s: State, t: Txn, a: Answer, setup: Setup)
    requires Inv(s) && Tracked(s) && t !in s.iips && t !in s.irqs && setup.NewDialogFor? && SetupOk(s, t, setup)
    requires !Accepts(s, t, a, setup)
    ensures var r := AddIncomingInvite(s, t, setup);
      SameTimers(s, r) && s.dlgs.Keys <= r.dlgs.Keys && t in r.iips && t !in r.irqs && !Accepts(r, t, a, Nothing)
  {
    hide InviteIrqs, TimersG, TimersH, Irqs, Owners, Updates;
  }

  /** What an answer other than a 200 to an INVITE does to the invite in progress it is for. */
  lemma OtherAnswers(s: State, t: Txn, a: Answer, setup: Setup, found: Option<SipDialog>)
    requires Inv(s) && Enabled(s, AppAnswers(t, a, setup, found)) && !Accepts(s, t, a, setup)
    requires t !in s.irqs && t in s.iips
    ensures s.iips[t].dlg in s.dlgs && AnsweredElse(s, Step(s, AppAnswers(t, a, setup, found)), t, a)
  {
    TableFacts(s);
    InviteElse(s, t, a);
    hide Inv, AnswerInvite, AnsweredElse, SameTimers, SetupOk;
  }

  // ---------- timer G ----------

  /** Timer G, as long as its dialog has the INVITE irq: the 200 OK goes out on that, and the timer is set again,
      for twice the interval and 4 s at most. Without one it stops for good, timer H with it. */
  lemma TimerGFiring(s: State, h: Timer, lost: bool)
    requires Inv(s) && Quiet(s.dlgs) && Enabled(s, TimerG(h, lost))
    ensures var d := s.queueG[h]; var r := Step(s, TimerG(h, lost)); var rec := s.dlgs[d];
      && r.iips == s.iips && r.stable == s.stable && r.irqs == s.irqs && r.destroyed == s.destroyed
      && (rec.inviteIrq.None? ==> Quieted(s, r, d))
      && (rec.inviteIrq.Some? ==>
            && OthersSame(s.dlgs, r.dlgs, d) && r.queueH == s.queueH
            && Started(s.queueG - {h}, r.queueG, r.dlgs[d].timerG, d, lost) && r.dlgs[d].timerG != Some(h)
            && r.dlgs[d] == rec.(timerG := r.dlgs[d].timerG,
                                 durationG := if rec.durationG > 2000 then 4000 else 2 * rec.durationG))
  {
    TableFacts(s);
    hide Inv, TimerGFires, Quieted;
    if s.dlgs[s.queueG[h]].inviteIrq.None? {
      GoesQuiet(s, h, lost);
    } else {
      GoesOn(s, h, lost);
    }
  }

  lemma GoesQuiet(s: State, h: Timer, lost: bool)
    requires Inv(s) && h in s.queueG && s.queueG[h] in s.dlgs && s.dlgs[s.queueG[h]].inviteIrq.None?
    ensures var r := TimerGFires(s, h, lost);
      && Quieted(s, r, s.queueG[h])
      && r.iips == s.iips && r.stable == s.stable && r.irqs == s.irqs && r.destroyed == s.destroyed
  {
    TimerGFacts(s, h);
    TimerGStops(s, h, lost);
    ClearSipTimersQuiets(s, s.queueG[h]);
    hide Inv, TimerGFires, Quieted;
  }

  lemma GoesOn(s: State, h: Timer, lost: bool)
    requires Inv(s) && h in s.queueG && s.queueG[h] in s.dlgs && s.dlgs[s.queueG[h]].inviteIrq.Some?
    requires Quiet(s.dlgs)
    ensures var d := s.queueG[h]; var r := TimerGFires(s, h, lost); var rec := s.dlgs[d];
      && r.iips == s.iips && r.stable == s.stable && r.irqs == s.irqs && r.destroyed == s.destroyed
      && OthersSame(s.dlgs, r.dlgs, d) && r.queueH == s.queueH
      && Started(s.queueG - {h}, r.queueG, r.dlgs[d].timerG, d, lost) && r.dlgs[d].timerG != Some(h)
      && r.dlgs[d] == rec.(timerG := r.dlgs[d].timerG,
                           durationG := if rec.durationG > 2000 then 4000 else 2 * rec.durationG)
  {
    hide Inv, Retransmit, TimerGFires;
    NextIsNew(s);
    TimerGFacts(s, h);
    FiresAgain(s, h, lost);
    SetAgain(s.(queueG := s.queueG - {h}), s.queueG[h], lost);
  }

  lemma FiresAgain(s: State, h: Timer, lost: bool)
    requires h in s.queueG && s.queueG[h] in s.dlgs && s.dlgs[s.queueG[h]].inviteIrq.Some?
    ensures TimerGFires(s, h, lost) == Retransmit(s.(queueG := s.queueG - {h}), s.queueG[h], lost)
  {
    hide Retransmit, StopRetransmitting;
  }

  lemma SetAgain(s: State, d: SipDialog, lost: bool)
    requires d in s.dlgs && s.dlgs[d].durationG > 0
    ensures var n := s.nextTimer; var rec := s.dlgs[d]; var r := Retransmit(s, d, lost);
      && r == s.(queueG := if lost then s.queueG else s.queueG[n := d], dlgs := r.dlgs, lost := r.lost,
                 nextTimer := n + 1)
      && r.dlgs == s.dlgs[d := rec.(timerG := Some(n), durationG := Bumped(rec.durationG))]
  {
  }

  // ---------- any other request ----------

  /** A request that does not end its dialog touches neither timers nor the two tables. */
  ghost predicate Undisturbed(s: State, r: State) {
    SameTimers(s, r) && r.iips == s.iips && r.stable == s.stable && r.dlgs.Keys == s.dlgs.Keys
  }

  predicate Refused(m: Method, routing: Routing) { (m == Invite_ || m == Update_) && routing.tooSmall }

  /** A client is there for the request, or it may wait for one: in an early dialog for the application that
      has the INVITE, an UPDATE only as the first. */
  predicate Waits(rec: Dialog, m: Method, routing: Routing) {
    && !Refused(m, routing)
    && (routing.routed
        || (rec.status < 200 && m != OutOfDialogCapable_ && m != NotifyTerminated_
            && (m == Update_ ==> rec.updateIrq.None?)))
  }

  predicate Given(rec: Dialog, m: Method, routing: Routing) {
    && !Refused(m, routing) && !routing.routed
    && (rec.status >= 200 || m == OutOfDialogCapable_ || m == NotifyTerminated_)
  }

  /** What becomes of a request that does not end its dialog: its irq is registered exactly if the request
      waits for a client, and destroyed exactly if it is given up or made a pending request. */
  lemma RequestWaits(s: State, leg: Leg, irq: Irq, t: Txn, m: Method, routing: Routing, d: SipDialog)
    requires Inv(s) && Enabled(s, RequestArrives(leg, irq, t, m, routing)) && Finds(s, leg, d) && d in s.dlgs
    requires !EndsIt(s, d, m, routing)
    ensures var r := Step(s, RequestArrives(leg, irq, t, m, routing)); var rec := s.dlgs[d];
      && Undisturbed(s, r)
      && r.irqs == (if Waits(rec, m, routing) then s.irqs[t := irq] else s.irqs)
      && r.destroyed == (if Given(rec, m, routing) then s.destroyed + multiset{irq} else s.destroyed)
      && r.destroyed[irq] <= 1
      && (r.dlgs[d].updateIrq == if m == Update_ && !routing.routed && Waits(rec, m, routing) then Some(irq)
                                 else rec.updateIrq)
  {
    TableFacts(s);
    ArriveKeeps(s, irq);
    FoundRequest(s, leg, irq, t, m, routing, d);
    RequestDone(Arrive(s, irq), d, leg, irq, t, m, routing);
    hide Inv, Finds, OtherRequest, RequestFor, SameTimers, FreshTxn;
    SameAfterArrival(s, irq, RequestFor(Arrive(s, irq), d, leg, irq, t, m, routing));
  }

  lemma SameAfterArrival(s: State, irq: Irq, r: State)
    requires SameTimers(Arrive(s, irq), r)
    ensures SameTimers(s, r)
  {
  }

  lemma RequestDone(s: State, d: SipDialog, leg: Leg, irq: Irq, t: Txn, m: Method, routing: Routing)
    requires Tracked(s) && d in s.dlgs && !EndsIt(s, d, m, routing)
    ensures var r := RequestFor(s, d, leg, irq, t, m, routing); var rec := s.dlgs[d];
      && Undisturbed(s, r)
      && r.irqs == (if Waits(rec, m, routing) then s.irqs[t := irq] else s.irqs)
      && r.destroyed == (if Given(rec, m, routing) then s.destroyed + multiset{irq} else s.destroyed)
      && (r.dlgs[d].updateIrq == if m == Update_ && !routing.routed && Waits(rec, m, routing) then Some(irq)
                                 else rec.updateIrq)
  {
    hide Tracked, Register, RegisterIrq, AddPending, DropPending, HoldUpdate, Destroy, Undisturbed;
    PendingDone(s, d, t);
    UpdateHeld(s, d, t, irq);
    PendingDropped(s, d, t, irq);
    if !(m == NotifyTerminated_ && !s.dlgs[d].inviteDialog) {
      Unended(s, AddPending(s, d, t), d, leg, irq, t, m, routing);
    }
    PendingDestroyed(s, d, t, irq);
  }

  ghost predicate Done(s: State, r: State, d: SipDialog, irqs: map<Txn, Irq>, destroyed: multiset<Irq>,
                       update: Option<Irq>) {
    Undisturbed(s, r) && r.irqs == irqs && r.destroyed == destroyed && d in r.dlgs && r.dlgs[d].updateIrq == update
  }

  lemma PendingDone(s: State, d: SipDialog, t: Txn)
    requires d in s.dlgs
    ensures Done(s, AddPending(s, d, t), d, s.irqs, s.destroyed, s.dlgs[d].updateIrq)
    ensures Tracked(s) ==> Tracked(AddPending(s, d, t))
    ensures AddPending(s, d, t).dlgs[d] == s.dlgs[d].(pending := s.dlgs[d].pending + {t})
  {
  }

  lemma PendingDropped(s: State, d: SipDialog, t: Txn, irq: Irq)
    requires d in s.dlgs
    ensures Done(s, Destroy(DropPending(AddPending(s, d, t), d, t), irq), d, s.irqs, s.destroyed + multiset{irq},
                 s.dlgs[d].updateIrq)
  {
  }

  lemma PendingDestroyed(s: State, d: SipDialog, t: Txn, irq: Irq)
    requires d in s.dlgs
    ensures Done(s, Destroy(AddPending(s, d, t), irq), d, s.irqs, s.destroyed + multiset{irq}, s.dlgs[d].updateIrq)
  {
  }

  lemma UpdateHeld(s: State, d: SipDialog, t: Txn, irq: Irq)
    requires d in s.dlgs
    ensures Done(s, RegisterIrq(HoldUpdate(AddPending(s, d, t), d, t, irq), t, irq, Of(d)), d, s.irqs[t := irq],
                 s.destroyed, Some(irq))
  {
  }

  lemma Unended(s: State, s1: State, d: SipDialog, leg: Leg, irq: Irq, t: Txn, m: Method, routing: Routing)
    requires Tracked(s1) && d in s.dlgs && m != Bye_ && s1 == AddPending(s, d, t)
    requires !(m == NotifyTerminated_ && !s.dlgs[d].inviteDialog)
    ensures Done(s, Register(s1, d, leg, irq, t, m, routing), d, s.irqs[t := irq], s.destroyed, s.dlgs[d].updateIrq)
  {
    hide EndDialog, Tracked;
  }

  // ---------- requests and responses of our own dialogs ----------

  lemma FoundById(s: State, d: SipDialog)
    requires Inv(s) && Tracked(s) && d in s.stable
    ensures d in s.dlgs && StableById(s, s.dlgs[d].dialogId) == Some(d)
    ensures SdClearId(s, s.dlgs[d].dialogId) == s.(stable := s.stable - {d})
  {
    hide InviteIrqs, TimersG, TimersH, Irqs, Owners, Updates;
  }

  /** The application's ACK, with the dialog it is for: after a 200 the INVITE in progress on the leg ends, and with
      a BYE to follow so does the dialog; after a failure the dialog ends. */
  lemma OwnAckEnds(s: State, d: SipDialog, ackBye: bool)
    requires Inv(s) && d in s.stable && d in s.dlgs
    ensures var r := Step(s, AppSends(s.dlgs[d].dialogId, SentAck(ackBye), false)); var leg := s.dlgs[d].leg;
      if s.dlgs[d].status == 200 then
        && Vacated(s.iips, r.iips, leg) && InviteIrqGone(s, r, leg)
        && r.stable == if ackBye then s.stable - {d} else s.stable
      else r == s.(stable := s.stable - {d})
    ensures Step(s, AppSends(s.dlgs[d].dialogId, SentAck(ackBye), true)) == s
  {
    TableFacts(s);
    OwnAckDone(s, d, ackBye);
    hide Inv, SendInside, Vacated, InviteIrqGone;
  }

  lemma OwnAckDone(s: State, d: SipDialog, ackBye: bool)
    requires Inv(s) && Tracked(s) && d in s.stable && d in s.dlgs
    ensures var r := SendInside(s, s.dlgs[d].dialogId, SentAck(ackBye), false); var leg := s.dlgs[d].leg;
      if s.dlgs[d].status == 200 then
        && Vacated(s.iips, r.iips, leg) && InviteIrqGone(s, r, leg)
        && r.stable == if ackBye then s.stable - {d} else s.stable
      else r == s.(stable := s.stable - {d})
    ensures SendInside(s, s.dlgs[d].dialogId, SentAck(ackBye), true) == s
  {
    FoundById(s, d);
    var leg := s.dlgs[d].leg;
    IipClearLegVacates(s, leg);
    hide Inv, IipClearLeg, SdClearId, Vacated, InviteIrqOn, Tracked;
  }

  /** A response to an INVITE or SUBSCRIBE of ours: its status is kept; the dialog becomes stable with a 200, a
      202 to a SUBSCRIBE or a reliable provisional one, unless its id is taken; a status above 200 ends the
      request. */
  lemma ResponseSettles(s: State, t: Txn, status: nat, subscribe: bool, reliable: bool)
    requires Inv(s) && Enabled(s, ResponseArrives(t, status, subscribe, reliable))
    ensures
      var d := s.iips[t].dlg;
      var r := Step(s, ResponseArrives(t, status, subscribe, reliable));
      var opens := if subscribe then status == 200 || status == 202
                   else status == 200 || (100 < status < 200 && reliable);
      var taken := exists e :: e in s.stable && e in s.dlgs && e != d && s.dlgs[e].dialogId == s.dlgs[d].dialogId;
      && d in s.dlgs && d in r.dlgs && r.dlgs[d].status == status
      && r.stable == (if opens && !taken then s.stable + {d} else s.stable)
      && (if status > 200 then Vacated(s.iips, r.iips, s.iips[t].leg) else r.iips == s.iips)
      && SameTimers(s, r) && r.irqs == s.irqs && r.destroyed == s.destroyed
  {
    TableFacts(s);
    ResponseDone(s, t, status, subscribe, reliable);
    hide Inv, ResponseOutside, Vacated, SameTimers;
  }

  lemma ResponseDone(s: State, t: Txn, status: nat, subscribe: bool, reliable: bool)
    requires Inv(s) && Tracked(s) && t in s.iips && s.iips[t].dlg in s.dlgs && !s.dlgs[s.iips[t].dlg].uas
    ensures
      var d := s.iips[t].dlg;
      var r := ResponseOutside(s, t, status, subscribe, reliable);
      var opens := if subscribe then status == 200 || status == 202
                   else status == 200 || (100 < status < 200 && reliable);
      var taken := exists e :: e in s.stable && e in s.dlgs && e != d && s.dlgs[e].dialogId == s.dlgs[d].dialogId;
      && d in r.dlgs && r.dlgs[d].status == status
      && r.stable == (if opens && !taken then s.stable + {d} else s.stable)
      && (if status > 200 then Vacated(s.iips, r.iips, s.iips[t].leg) else r.iips == s.iips)
      && SameTimers(s, r) && r.irqs == s.irqs && r.destroyed == s.destroyed
  {
    var d := s.iips[t].dlg;
    var s1 := SetDlg(s, d, s.dlgs[d].(status := status));
    OwnStable(s, s1, d, status);
    IipFacts(s, t);
    OwnCleared(s, s1, t, status);
    OwnCleared(s, SdInsert(s1, d), t, status);
    hide Inv, SdInsert, IipClear, Tracked, Vacated;
  }

  lemma OwnStable(s: State, s1: State, d: SipDialog, status: nat)
    requires Inv(s) && Tracked(s) && d in s.dlgs && s1 == SetDlg(s, d, s.dlgs[d].(status := status))
    ensures Tracked(s1)
    ensures var taken := exists e :: e in s.stable && e in s.dlgs && e != d && s.dlgs[e].dialogId == s.dlgs[d].dialogId;
      SdInsert(s1, d) == s1.(stable := if taken then s.stable else s.stable + {d})
  {
    hide InviteIrqs, TimersG, TimersH, Irqs, Owners, Updates;
  }

  lemma OwnCleared(s: State, s2: State, t: Txn, status: nat)
    requires Inv(s) && Tracked(s2) && t in s.iips && s.iips[t].dlg in s.dlgs && s.iips[t].irq.None?
    requires s2 == SetDlg(s, s.iips[t].dlg, s.dlgs[s.iips[t].dlg].(status := status)).(stable := s2.stable)
    ensures var d := s.iips[t].dlg; var r := IipClear(s2, t);
      && d in r.dlgs && r.dlgs[d].status == status && r.stable == s2.stable && Vacated(s.iips, r.iips, s.iips[t].leg)
      && SameTimers(s, r) && SameTimers(s, s2) && r.irqs == s.irqs && r.destroyed == s.destroyed
  {
    hide Inv, Tracked;
  }

  /** The application's BYE ends an INVITE of ours that is still in progress in its dialog; its re-INVITE is one
      in progress from then on, unless there is one. */
  lemma OwnByeAndInvite(s: State, d: SipDialog, orq: Orq, fails: bool)
    requires Inv(s) && d in s.stable && d in s.dlgs
    ensures var r := Step(s, AppSends(s.dlgs[d].dialogId, SentBye, fails)); var leg := s.dlgs[d].leg;
      && r.stable == s.stable
      && (if exists t :: t in s.iips && s.iips[t].leg == leg && s.iips[t].orq.Some?
          then Vacated(s.iips, r.iips, leg) else r == s)
    ensures var t := s.dlgs[d].txn; var r := Step(s, AppSends(s.dlgs[d].dialogId, SentInvite(orq), fails));
      r == if fails || t in s.iips then s else s.(iips := s.iips[t := Iip(s.dlgs[d].leg, None, Some(orq), d)])
  {
    TableFacts(s);
    FoundById(s, d);
    OwnByeDone(s, d, fails);
    hide Inv, IipClearLeg, Vacated;
  }

  lemma OwnByeDone(s: State, d: SipDialog, fails: bool)
    requires Inv(s) && Tracked(s) && d in s.stable && d in s.dlgs
    ensures var r := SendInside(s, s.dlgs[d].dialogId, SentBye, fails); var leg := s.dlgs[d].leg;
      && r.stable == s.stable
      && (if exists t :: t in s.iips && s.iips[t].leg == leg && s.iips[t].orq.Some?
          then Vacated(s.iips, r.iips, leg) else r == s)
  {
    FoundById(s, d);
    var leg := s.dlgs[d].leg;
    IipClearLegVacates(s, leg);
    if t :| t in s.iips && s.iips[t].leg == leg && s.iips[t].orq.Some? {
      OneIipPerLeg(s, IipByLeg(s.iips, leg).value, t);
    }
    hide Inv, IipClearLeg, Vacated, InviteIrqGone, Tracked;
  }

  // ---------- what is left ----------

  /** An INVITE of ours is in progress from when it is sent. */
  lemma OwnInviteWaits(s: State, d: SipDialog, rec: Dialog, orq: Orq)
    requires Inv(s) && Enabled(s, AppInvites(d, rec, orq))
    ensures Step(s, AppInvites(d, rec, orq))
            == s.(dlgs := s.dlgs[d := rec], iips := s.iips[rec.txn := Iip(rec.leg, None, Some(orq), d)])
  {
    TableFacts(s);
    hide InviteIrqs, TimersG, TimersH, Irqs, Owners, Updates;
    assert rec.txn !in s.iips;
  }

  /** A BYE that nobody answers in time is given up: its irq is destroyed, the first time it is. */
  lemma ByeTimesOut(s: State, t: Txn)
    requires Inv(s) && Enabled(s, ByeTimeout(t)) && t in s.irqs
    ensures var r := Step(s, ByeTimeout(t));
      && r == s.(irqs := s.irqs - {t}, destroyed := s.destroyed + multiset{s.irqs[t]})
      && r.destroyed[s.irqs[t]] == 1
  {
    TableFacts(s);
    RegisteredLive(s);
    hide Inv;
  }

  /** A PRACK for a reliable response of an INVITE in progress waits for the application. */
  lemma PrackWaits(s: State, irq: Irq, t: Txn, known: bool)
    requires Inv(s) && Enabled(s, PrackArrives(irq, t, known))
    ensures var r := Step(s, PrackArrives(irq, t, known));
      && r.irqs == (if known then s.irqs[t := irq] else s.irqs) && r.destroyed == s.destroyed
      && Undisturbed(s, r)
  {
    TableFacts(s);
    hide Inv;
  }

  /** No request outlives its dialog: when the destructor has run none of its irqs is registered any more, each
      that was has been destroyed once, and nothing else has. */
  lemma NothingOutlives(s: State, d: SipDialog, txns: seq<Txn>, t: Txn)
    requires Inv(s) && Enabled(s, DestructorRuns(d, txns))
    ensures var r := Step(s, DestructorRuns(d, txns));
      && r.dlgs == s.dlgs - {d} && r.iips == s.iips && r.stable == s.stable
      && r.queueG == s.queueG && r.queueH == s.queueH
      && (t in r.irqs <==> t in s.irqs && t !in s.dlgs[d].pending)
      && (t in s.irqs ==> r.destroyed[s.irqs[t]] == if t in s.dlgs[d].pending then 1 else 0)
  {
    TableFacts(s);
    InvHoldsLive(s);
    ClearDanglingFrame(s, txns, s.dlgs);
    DanglingDestroyed(s, txns, t);
    hide Inv, HoldsLive, ClearDangling;
  }

  lemma {:induction false} DanglingDestroyed(s: State, txns: seq<Txn>, t: Txn)
    requires HoldsLive(s)
    ensures var r := ClearDangling(s, txns);
      && (t in r.irqs <==> t in s.irqs && t !in txns)
      && (t in s.irqs ==> r.destroyed[s.irqs[t]] == if t in txns then 1 else 0)
    decreases |txns|
  {
    if txns == [] {
      NothingLeft(s, txns);
    } else {
      TakeNext(s, txns);
      var s1 := TakeIrq(s, txns[0]);
      DanglingDestroyed(s1, txns[1..], t);
      if t == txns[0] && t in s.irqs {
        StaysDestroyed(s1, txns[1..], s.irqs[t]);
      }
      hide HoldsLive, ClearDangling;
    }
  }

  /** An irq that no entry holds is not destroyed again. */
  lemma {:induction false} StaysDestroyed(s: State, txns: seq<Txn>, irq: Irq)
    requires forall t :: t in s.irqs ==> s.irqs[t] != irq
    ensures ClearDangling(s, txns).destroyed[irq] == s.destroyed[irq]
    decreases |txns|
  {
    if txns != [] {
      StaysDestroyed(TakeIrq(s, txns[0]), txns[1..], irq);
    }
  }
}
