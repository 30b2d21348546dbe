/** The dialog controller itself: tables, dialog objects and timer queues changed in place
    (src/sip-dialog-controller.cpp, src/sip-dialog-controller.hpp). Each method is proved against the
    function of the same name in DialogHandlers. Destroying an irq demands that it was never destroyed
    before, except in AnswerPlain, and removing a timer demands that it has not fired: its entry is
    still queued or was lost when it was added. */
module DialogControllers {
  import opened Wrappers
  import opened SipDialogs
  import S = DialogSpec
  import H = DialogHandlers
  import I = DialogInvariant
  import R = DialogRuns

  class DialogController {
    var iips: Iips
    var stable: set<SipDialog>
    var irqs: map<Txn, Irq>
    var queueG: map<Timer, SipDialog>
    var queueH: map<Timer, SipDialog>
    var nextTimer: Timer
    ghost var recs: map<SipDialog, Dialog>  // what every dialog object not yet destroyed holds
    ghost var owner: map<Txn, S.Owner>
    ghost var seen: set<Irq>
    ghost var destroyed: multiset<Irq>
    ghost var again: multiset<Irq>
    ghost var lost: set<Timer>

    ghost function View(): S.State
      reads this
    {
      S.State(iips, stable, irqs, queueG, queueH, nextTimer, lost, recs, owner, seen, destroyed, again)
    }

    /** The invariant of DialogHandlers holds of the tables and of what the dialog objects hold. */
    ghost predicate Valid()
      reads this, recs.Keys
    {
      H.Inv(View()) && Mirrors()
    }

    ghost predicate Mirrors()
      reads this, recs.Keys
    {
      forall d :: d in recs ==> recs[d] == d.Rec()
    }

    constructor ()
      ensures Valid() && View() == H.Init
    {
      iips, stable, irqs, queueG, queueH, nextTimer := map[], {}, map[], map[], map[], 0;
      recs, owner, seen, destroyed, again, lost := map[], map[], {}, multiset{}, multiset{}, {};
    }

    // ---------- the stack and the timer queues ----------

    ghost method NtaIncomingDestroy(irq: Irq)
      requires irq !in destroyed
      modifies this`destroyed
      ensures destroyed == old(destroyed) + multiset{irq}
    {
      destroyed := destroyed + multiset{irq};
    }

    method RemoveTimerG(handle: Timer)
      requires handle in queueG || handle in lost
      modifies this`queueG
      ensures queueG == old(queueG) - {handle}
      ensures handle !in old(queueG) ==> queueG == old(queueG)
    {
      queueG := queueG - {handle};
    }

    method RemoveTimerH(handle: Timer)
      requires handle in queueH || handle in lost
      modifies this`queueH
      ensures queueH == old(queueH) - {handle}
      ensures handle !in old(queueH) ==> queueH == old(queueH)
    {
      queueH := queueH - {handle};
    }

    // ---------- table lookups ----------

    method FindIipByLeg(leg: Leg) returns (r: Option<Txn>)
      requires Valid()
      ensures r == S.IipByLeg(iips, leg)
    {
      if t :| t in iips && iips[t].leg == leg {
        I.TableFacts(View());
        var u := S.IipByLeg(iips, leg);
        I.OneIipPerLeg(View(), t, u.value);
        r := Some(t);
      } else {
        r := None;
      }
    }

    method FindIipByIrq(irq: Irq) returns (r: Option<Txn>)
      requires Valid()
      ensures r == S.IipByIrq(iips, irq)
    {
      if t :| t in iips && iips[t].irq == Some(irq) {
        var u := S.IipByIrq(iips, irq);
        I.OneIipPerIrq(View(), t, u.value);
        r := Some(t);
      } else {
        r := None;
      }
    }

    method FindStableByLeg(leg: Leg) returns (r: Option<SipDialog>)
      requires Valid()
      ensures r == S.StableByLeg(View(), leg)
    {
      if d :| d in stable && d.leg == leg {
        var e := S.StableByLeg(View(), leg);
        assert recs[d].leg == leg;
        I.OneDialogPerKey(View(), d, e.value);
        r := Some(d);
      } else {
        assert forall d :: d in stable ==> recs[d].leg == d.leg;
        r := None;
      }
    }

    method FindStableById(id: DialogId) returns (r: Option<SipDialog>)
      requires Valid()
      ensures r == S.StableById(View(), id)
    {
      if d :| d in stable && d.dialogId == id {
        var e := S.StableById(View(), id);
        assert recs[d].dialogId == id;
        I.OneDialogPerKey(View(), d, e.value);
        r := Some(d);
      } else {
        assert forall d :: d in stable ==> recs[d].dialogId == d.dialogId;
        r := None;
      }
    }

    method FindDialogByLeg(leg: Leg) returns (r: Option<SipDialog>)
      requires Valid()
      ensures r == S.DialogByLeg(View(), leg) && (r.Some? ==> r.value in recs)
    {
      var t := FindIipByLeg(leg);
      if t.Some? {
        r := Some(iips[t.value].dlg);
      } else {
        r := FindStableByLeg(leg);
      }
    }

    // ---------- primitives ----------

    method ForgetInvite(dlg: SipDialog)
      requires dlg in recs && Mirrors()
      modifies this`recs, dlg
      ensures View() == S.ForgetInvite(old(View()), dlg) && Mirrors()
    {
      dlg.inviteIrq := None;
      recs := recs[dlg := dlg.Rec()];
    }

    method StopG(dlg: SipDialog)
      requires dlg in recs && Mirrors() && I.Live(dlg.timerG, queueG, lost)
      modifies this`recs, this`queueG, dlg
      ensures View() == S.StopG(old(View()), dlg) && Mirrors()
    {
      var h := dlg.timerG;
      if h.Some? {
        RemoveTimerG(h.value);
        dlg.timerG := None;
        recs := recs[dlg := dlg.Rec()];
      }
      assert recs == old(recs)[dlg := old(recs)[dlg].(timerG := None)];
    }

    method StopH(dlg: SipDialog)
      requires dlg in recs && Mirrors() && I.Live(dlg.timerH, queueH, lost)
      modifies this`recs, this`queueH, dlg
      ensures View() == S.StopH(old(View()), dlg) && Mirrors()
    {
      var h := dlg.timerH;
      if h.Some? {
        RemoveTimerH(h.value);
        dlg.timerH := None;
        recs := recs[dlg := dlg.Rec()];
      }
      assert recs == old(recs)[dlg := old(recs)[dlg].(timerH := None)];
    }

    method ClearSipTimers(dlg: SipDialog)
      requires Valid() && dlg in recs
      modifies this, dlg
      ensures View() == S.ClearSipTimers(old(View()), dlg) && Valid()
    {
      hide S.StopH, S.ForgetInvite, S.ClearSipTimers;
      hide H.Inv;
      I.ClearSipTimersKeeps(View(), dlg);
      I.HandlesQueued(View(), dlg);
      S.StopBothAndForget(View(), dlg);
      StopG(dlg);
      StopH(dlg);
      ForgetInvite(dlg);
    }

    method DropInvite(iip: Iip)
      requires iip.dlg in recs && Mirrors() && (iip.irq.Some? ==> iip.irq.value !in destroyed)
      modifies this`recs, this`destroyed, iip.dlg
      ensures View() == S.DropInvite(old(View()), iip) && Mirrors()
    {
      if iip.irq.Some? {
        ForgetInvite(iip.dlg);
        NtaIncomingDestroy(iip.irq.value);
      }
    }

    method IipClear(t: Txn)
      requires Valid() && t in iips
      modifies this, recs.Keys
      ensures View() == S.IipClear(old(View()), t) && Valid()
    {
      hide H.Inv, S.Tracked, S.DropInvite, S.WithoutLeg;
      I.TableFacts(View());
      I.IipClearKeeps(View(), t);
      I.IipFacts(View(), t);
      var leg := iips[t].leg;
      DropInvite(iips[t]);
      iips := S.WithoutLeg(iips, leg);
    }

    method IipClearLeg(leg: Leg)
      requires Valid()
      modifies this, recs.Keys
      ensures View() == S.IipClearLeg(old(View()), leg) && Valid()
    {
      hide H.Inv, S.IipClear;
      I.TableFacts(View());
      var t := FindIipByLeg(leg);
      if t.Some? {
        IipClear(t.value);
      }
    }

    method SdInsert(dlg: SipDialog)
      requires Valid() && dlg in recs && (dlg.uas ==> dlg.status >= 200)
      modifies this`stable
      ensures View() == S.SdInsert(old(View()), dlg) && Valid()
    {
      hide H.Inv;
      I.TableFacts(View());
      I.SdInsertKeeps(View(), dlg);
      assert forall e :: e in stable ==> recs[e].leg == e.leg && recs[e].dialogId == e.dialogId;
      if !exists e :: e in stable && (e.leg == dlg.leg || e.dialogId == dlg.dialogId) {
        stable := stable + {dlg};
      }
    }

    method SdClearLeg(leg: Leg)
      requires Valid()
      modifies this`stable
      ensures View() == S.SdClearLeg(old(View()), leg) && Valid()
    {
      hide H.Inv;
      I.TableFacts(View());
      I.SdClearKeeps(View(), S.SdClearLeg(View(), leg));
      stable := set d | d in stable && d.leg != leg;
    }

    method SdClearId(id: DialogId)
      requires Valid()
      modifies this`stable
      ensures View() == S.SdClearId(old(View()), id) && Valid()
    {
      hide H.Inv;
      I.TableFacts(View());
      I.SdClearKeeps(View(), S.SdClearId(View(), id));
      stable := set d | d in stable && d.dialogId != id;
    }

    method SdClearPtr(dlg: SipDialog)
      requires Valid()
      modifies this`stable
      ensures View() == S.SdClearPtr(old(View()), dlg) && Valid()
    {
      hide H.Inv;
      I.SdClearKeeps(View(), S.SdClearPtr(View(), dlg));
      stable := stable - {dlg};
    }

    /** TimerQueue::add on the timer G queue; `dropped` when the entry fell off the scan. */
    method QueueG(dlg: SipDialog, dropped: bool) returns (handle: Timer)
      modifies this`queueG, this`nextTimer, this`lost
      ensures handle == old(nextTimer) && nextTimer == handle + 1
      ensures queueG == S.Enqueue(old(queueG), handle, dlg, dropped)
      ensures lost == S.Lose(old(lost), handle, dropped)
    {
      if !dropped {
        queueG := queueG[nextTimer := dlg];
      }
      lost := S.Lose(lost, nextTimer, dropped);
      handle, nextTimer := nextTimer, nextTimer + 1;
    }

    method QueueH(dlg: SipDialog, dropped: bool) returns (handle: Timer)
      modifies this`queueH, this`nextTimer, this`lost
      ensures handle == old(nextTimer) && nextTimer == handle + 1
      ensures queueH == S.Enqueue(old(queueH), handle, dlg, dropped)
      ensures lost == S.Lose(old(lost), handle, dropped)
    {
      if !dropped {
        queueH := queueH[nextTimer := dlg];
      }
      lost := S.Lose(lost, nextTimer, dropped);
      handle, nextTimer := nextTimer, nextTimer + 1;
    }

    /** m_pTQM->addTimer, then setTimerG. */
    method AddTimerG(dlg: SipDialog, dropped: bool)
      requires dlg in recs && Mirrors()
      modifies this`queueG, this`nextTimer, this`lost, this`recs, dlg
      ensures View() == S.AddTimerG(old(View()), dlg, dropped) && Mirrors()
    {
      hide S.Enqueue, S.Lose;
      var handle := QueueG(dlg, dropped);
      dlg.SetTimerG(handle);
      recs := recs[dlg := dlg.Rec()];
    }

    method AddTimerH(dlg: SipDialog, dropped: bool)
      requires dlg in recs && Mirrors()
      modifies this`queueH, this`nextTimer, this`lost, this`recs, dlg
      ensures View() == S.AddTimerH(old(View()), dlg, dropped) && Mirrors()
    {
      hide S.Enqueue, S.Lose;
      var handle := QueueH(dlg, dropped);
      dlg.timerH := Some(handle);
      recs := recs[dlg := dlg.Rec()];
    }

    /** findAndRemoveTransactionIdForIncomingRequest, then nta_incoming_destroy when it was found. */
    method TakeIrq(t: Txn)
      requires t in irqs ==> irqs[t] !in destroyed
      modifies this`irqs, this`destroyed
      ensures View() == S.TakeIrq(old(View()), t)
    {
      if t in irqs {
        var irq := irqs[t];
        irqs := irqs - {t};
        NtaIncomingDestroy(irq);
      }
    }

    method AddIncomingRequestTransaction(t: Txn, irq: Irq, ghost who: S.Owner)
      requires t !in irqs
      modifies this`irqs, this`owner
      ensures View() == S.RegisterIrq(old(View()), t, irq, who)
    {
      irqs := irqs[t := irq];
      owner := owner[t := who];
    }

    method AddPending(dlg: SipDialog, t: Txn)
      requires dlg in recs && Mirrors()
      modifies this`recs, dlg
      ensures View() == S.AddPending(old(View()), dlg, t) && Mirrors()
    {
      dlg.pending := dlg.pending + {t};
      recs := recs[dlg := dlg.Rec()];
    }

    method DropPending(dlg: SipDialog, t: Txn)
      requires dlg in recs && Mirrors()
      modifies this`recs, dlg
      ensures View() == S.DropPending(old(View()), dlg, t) && Mirrors()
    {
      dlg.pending := dlg.pending - {t};
      recs := recs[dlg := dlg.Rec()];
    }

    // ---------- requests inside a dialog ----------

    method Acked(leg: Leg)
      requires Valid()
      modifies this, recs.Keys
      ensures H.Links(old(View())) && View() == H.Acked(old(View()), leg) && Valid()
    {
      hide H.Inv, S.IipClear, S.ClearSipTimers;
      I.TableFacts(View());
      var t := FindIipByLeg(leg);
      if t.Some? {
        var dlg := iips[t.value].dlg;
        IipClear(t.value);
        ClearSipTimers(dlg);
      } else {
        var dlg := FindStableByLeg(leg);
        if dlg.Some? {
          ClearSipTimers(dlg.value);
        }
      }
    }

    /** processRequestInsideDialog, ACK. */
    method AckRequest(leg: Leg, irq: Irq)
      requires Valid() && H.FreshIrq(View(), irq)
      modifies this, recs.Keys
      ensures H.Links(old(View())) && View() == H.AckRequest(old(View()), leg, irq) && Valid()
    {
      hide H.Inv, H.Links, H.Acked;
      R.AckKeeps(View(), leg, irq);
      seen := seen + {irq};
      Acked(leg);
      NtaIncomingDestroy(irq);
    }

    /** processRequestInsideDialog, CANCEL. With no break at its end, the branch runs on into the
        default one, whose dialog lookup fails: that is where the 481 comes from. */
    method CancelRequest(leg: Leg, irq: Irq, forked: bool) returns (rc: nat)
      requires Valid() && H.FreshIrq(View(), irq)
      modifies this, recs.Keys
      ensures H.Links(old(View())) && View() == H.CancelRequest(old(View()), leg, irq, forked) && Valid()
      ensures rc == if forked then 0 else 481
    {
      hide H.Inv, H.Links, H.FreshIrq, H.TearDown, S.DialogByLeg;
      R.CancelKeeps(View(), leg, irq, forked);
      seen := seen + {irq};
      if forked {
        return 0;
      }
      var dlg := FindDialogByLeg(leg);
      if dlg.None? {
        return 481;
      }
      TearDown(dlg.value, leg);
      var again := FindDialogByLeg(leg);
      assert again.None?;
      return 481;
    }

    method TearDown(dlg: SipDialog, leg: Leg)
      requires Valid() && dlg in recs
      modifies this, recs.Keys
      ensures H.Links(old(View())) && View() == H.TearDown(old(View()), dlg, leg) && Valid()
    {
      hide H.Inv, S.ClearSipTimers, S.SdClearLeg, S.IipClearLeg;
      I.TableFacts(View());
      ClearSipTimers(dlg);
      SdClearLeg(leg);
      IipClearLeg(leg);
    }

    method EndDialog(dlg: SipDialog, leg: Leg, t: Txn, routed: bool)
      requires Valid() && dlg in recs && (routed || H.ToldToApp(View(), t))
      modifies this, recs.Keys
      ensures H.Links(old(View())) && View() == H.EndDialog(old(View()), dlg, leg, t, routed) && Valid()
    {
      hide H.Inv, H.Links, H.ToldToApp, S.ClearSipTimers, S.SdClearLeg, S.IipClear;
      R.EndDialogKeeps(View(), dlg, leg, t, routed);
      ClearSipTimers(dlg);
      SdClearLeg(leg);
      if !routed {
        TakeIrq(t);
      }
      if dlg.txn in iips {
        IipClear(dlg.txn);
      }
    }

    /** processCancelOrAck. */
    method IrqCallback(irq: Irq, e: H.IrqEvent)
      requires Valid()
      modifies this, recs.Keys
      ensures H.Links(old(View())) && View() == H.IrqCallback(old(View()), irq, e) && Valid()
    {
      hide H.Inv, S.ClearSipTimers, S.IipClear, S.IipByIrq;
      I.TableFacts(View());
      R.IrqCallbackKeeps(View(), irq, e);
      var t := FindIipByIrq(irq);
      if t.Some? {
        var dlg := iips[t.value].dlg;
        match e
        case NoSip =>
          ClearSipTimers(dlg);
          IipClear(t.value);
        case Cancel =>
          IipClear(t.value);
        case Ack =>
          IipClear(t.value);
          ClearSipTimers(dlg);
        case Discarded =>
      }
    }

    // ---------- timers ----------

    /** retransmitFinalResponse: doTimer has already taken the entry off its queue. */
    method TimerGFires(handle: Timer, dropped: bool) returns (retransmitted: Option<Irq>)
      requires Valid() && handle in queueG
      modifies this, recs.Keys
      ensures old(View()).queueG[handle] in old(View()).dlgs
      ensures View() == H.TimerGFires(old(View()), handle, dropped) && Valid()
      ensures retransmitted == H.Retransmits(old(View()), handle)
      ensures retransmitted.Some? ==> retransmitted.value !in destroyed
    {
      hide H.Inv, H.StopRetransmitting, H.Retransmit;
      R.TimerGFacts(View(), handle);
      R.TimerGKeeps(View(), handle, dropped);
      var dlg := queueG[handle];
      queueG := queueG - {handle};
      retransmitted := dlg.inviteIrq;
      if retransmitted.None? {
        StopRetransmitting(dlg);
      } else {
        Retransmit(dlg, dropped);
      }
    }

    method StopRetransmitting(dlg: SipDialog)
      requires dlg in recs && Mirrors() && I.Live(dlg.timerH, queueH, lost)
      modifies this`recs, this`queueH, dlg
      ensures View() == H.StopRetransmitting(old(View()), dlg) && Mirrors()
    {
      hide S.StopH, S.ForgetInvite;
      dlg.timerG := None;
      recs := recs[dlg := dlg.Rec()];
      StopH(dlg);
      ForgetInvite(dlg);
    }

    method Retransmit(dlg: SipDialog, dropped: bool)
      requires dlg in recs && Mirrors()
      modifies this`recs, this`queueG, this`nextTimer, this`lost, dlg
      ensures View() == H.Retransmit(old(View()), dlg, dropped) && Mirrors()
    {
      hide S.AddTimerG;
      var ms := dlg.BumpTimerG();
      recs := recs[dlg := dlg.Rec()];
      AddTimerG(dlg, dropped);
    }

    /** endRetransmitFinalResponse. */
    method TimerHFires(handle: Timer)
      requires Valid() && handle in queueH
      modifies this, recs.Keys
      ensures H.Links(old(View())) && old(View()).queueH[handle] in old(View()).dlgs
      ensures View() == H.TimerHFires(old(View()), handle) && Valid()
    {
      hide H.Inv, H.AfterTimerH, S.IipClearLeg, S.SdClearLeg;
      I.TableFacts(View());
      R.TimerHFacts(View(), handle);
      var dlg := queueH[handle];
      StopBothTimers(handle);
      IipClearLeg(dlg.leg);
      SdClearLeg(dlg.leg);
    }

    method StopBothTimers(handle: Timer)
      requires Mirrors() && handle in queueH && queueH[handle] in recs
      requires I.Live(queueH[handle].timerG, queueG, lost)
      modifies this`recs, this`queueG, this`queueH, queueH[handle]
      ensures View() == H.AfterTimerH(old(View()), handle) && Mirrors()
    {
      hide S.StopG, S.ForgetInvite;
      var dlg := queueH[handle];
      queueH := queueH - {handle};
      StopG(dlg);
      dlg.timerH := None;
      recs := recs[dlg := dlg.Rec()];
      ForgetInvite(dlg);
    }

    /** timeoutBye. */
    method TimeoutBye(t: Txn)
      requires Valid() && t in owner && owner[t] == S.Bye
      modifies this`irqs, this`destroyed
      ensures View() == S.TakeIrq(old(View()), t) && Valid()
    {
      hide H.Inv, S.TakeIrq;
      R.ByeTimeoutKeeps(View(), t);
      TakeIrq(t);
    }

    // ---------- the application answers ----------

    method AnswerUpdate(dlg: SipDialog)
      requires dlg in recs && Mirrors() && dlg.updateIrq.Some? && dlg.updateIrq.value !in destroyed
      modifies this`irqs, this`recs, this`destroyed, dlg
      ensures View() == H.AnswerUpdate(old(View()), dlg) && Mirrors()
    {
      var irq := dlg.updateIrq.value;
      irqs := irqs - {dlg.updateTxn};
      dlg.pending := dlg.pending - {dlg.updateTxn};
      dlg.updateIrq, dlg.updateTxn := None, 0;
      recs := recs[dlg := dlg.Rec()];
      NtaIncomingDestroy(irq);
    }

    method SetStatus(dlg: SipDialog, code: nat)
      requires dlg in recs && Mirrors()
      modifies this`recs, dlg
      ensures View() == S.SetDlg(old(View()), dlg, old(View()).dlgs[dlg].(status := code)) && Mirrors()
    {
      dlg.status := code;
      recs := recs[dlg := dlg.Rec()];
    }

    /** The 200 to an INVITE went out. */
    method Answered(dlg: SipDialog, irq: Irq, a: H.Answer)
      requires Valid() && dlg in recs && dlg.status >= 200
      modifies this, dlg
      ensures H.Links(old(View())) && View() == H.Answered(old(View()), dlg, irq, a) && Mirrors()
    {
      hide H.Inv, H.RememberInvite, S.SdInsert, S.AddTimerG, S.AddTimerH;
      I.TableFacts(View());
      SdInsert(dlg);
      if a.datagram {
        AddTimerG(dlg, a.lostG);
      }
      AddTimerH(dlg, a.lostH);
      RememberInvite(dlg, irq);
    }

    method RememberInvite(dlg: SipDialog, irq: Irq)
      requires dlg in recs && Mirrors()
      modifies this`recs, dlg
      ensures View() == H.RememberInvite(old(View()), dlg, irq) && Mirrors()
    {
      dlg.inviteIrq := Some(irq);
      recs := recs[dlg := dlg.Rec()];
    }

    /** A provisional or final response goes out on an invite in progress. */
    method SendAnswer(t: Txn, a: H.Answer)
      requires Valid() && t in iips && iips[t].dlg in recs && iips[t].irq.Some? && iips[t].dlg.status < 200
      modifies this, recs.Keys
      ensures H.Links(old(View())) && View() == H.SendAnswer(old(View()), t, a) && Valid()
    {
      hide H.Inv, H.Answered, S.SdInsert, S.IipClear;
      I.TableFacts(View());
      R.SendAnswerKeeps(View(), t, a);
      var iip := iips[t];
      var dlg := iip.dlg;
      SetStatus(dlg, a.code);
      if 100 < a.code < 200 && !a.subscribe && a.reliable {
      } else if !a.sendOk {
      } else if a.subscribe {
        if a.code == 202 || a.code == 200 {
          SdInsert(dlg);
        }
        IipClear(t);
      } else if a.code == 200 {
        Answered(dlg, iip.irq.value, a);
      }
    }

    method AnswerInvite(t: Txn, a: H.Answer)
      requires Valid() && t in iips && H.Links(View()) && H.InviteAnswerOk(View(), t, a)
      modifies this, recs.Keys
      ensures H.Links(old(View())) && View() == H.AnswerInvite(old(View()), t, a) && Valid()
    {
      hide H.Inv, H.SendAnswer, H.AnswerUpdate, H.Links;
      I.TableFacts(View());
      I.IipFacts(View(), t);
      R.AnswerInviteKeeps(View(), t, a);
      var dlg := iips[t].dlg;
      if dlg.updateIrq.Some? && a.cseqUpdate {
        R.AnswerUpdateKeeps(View(), dlg);
        AnswerUpdate(dlg);
      } else if dlg.status < 200 && a.transportOk {
        var other := FindStableById(dlg.dialogId);
        if other.None? {
          SendAnswer(t, a);
        }
      }
    }

    /** Client reply to a request registered in the irq table. */
    method AnswerRegistered(t: Txn, found: Option<SipDialog>)
      requires Valid() && t in irqs && H.ToldToApp(View(), t) && (found.Some? ==> found.value in recs)
      modifies this, recs.Keys
      ensures View() == H.AnswerRegistered(old(View()), t, found) && Valid()
    {
      hide H.Inv, H.ToldToApp, S.DropPending;
      R.AnswerRegisteredKeeps(View(), t, found);
      var irq := irqs[t];
      irqs := irqs - {t};
      if found.Some? {
        DropPending(found.value, t);
      }
      NtaIncomingDestroy(irq);
    }

    /** setupLegForIncomingRequest, for an INVITE or SUBSCRIBE: a new dialog object, and an invite in
        progress that holds it. */
    method AddIncomingInvite(t: Txn, irq: Irq, leg: Leg, dialogId: DialogId, inviteDialog: bool)
        returns (ghost setup: H.Setup)
      requires Valid() && t !in iips && H.FreshIrq(View(), irq)
      requires forall e :: e in recs ==> recs[e].leg != leg && recs[e].txn != t
      modifies this
      ensures setup.NewDialogFor? && setup.irq == irq && fresh(setup.dlg)
      ensures setup.rec == NewDialog(leg, t, dialogId, true, inviteDialog)
      ensures H.SetupOk(old(View()), t, setup) && View() == H.AddIncomingInvite(old(View()), t, setup) && Valid()
      ensures t in iips && iips[t].dlg == setup.dlg && fresh(recs.Keys - old(recs.Keys))
    {
      hide H.Inv;
      var dlg := new SipDialog(leg, t, dialogId, true, inviteDialog);
      setup := H.NewDialogFor(dlg, dlg.Rec(), irq);
      R.AddIncomingInviteKeeps(View(), t, setup);
      seen := seen + {irq};
      recs := recs[dlg := dlg.Rec()];
      iips := iips[t := Iip(leg, Some(irq), None, dlg)];
    }

    /** The reply to a request that was pending. Whether nta_incoming_find gave an irq destroyed before
        is not checked, so this one destruction makes no demand. */
    method AnswerPlain(irq: Irq)
      modifies this`seen, this`destroyed, this`again
      ensures View() == H.AnswerPlain(old(View()), irq)
    {
      seen := seen + {irq};
      again := if irq in destroyed then again + multiset{irq} else again;
      destroyed := destroyed + multiset{irq};
    }

    /** doRespondToSipRequest; `incoming` is the pending request, when neither table knows the id. */
    method Respond(t: Txn, a: H.Answer, incoming: H.Incoming, found: Option<SipDialog>)
        returns (ghost setup: H.Setup)
      requires Valid() && H.Links(View()) && H.AnswerOk(View(), t, a) && H.ToldToApp(View(), t)
      requires H.IncomingOk(View(), t, incoming)
      requires found.Some? ==> found.value in recs
      modifies this, recs.Keys
      ensures H.Links(old(View())) && H.SetupOk(old(View()), t, setup) && H.AnswerOk(old(View()), t, a)
      ensures View() == H.Respond(old(View()), t, a, setup, found) && Valid()
      ensures t !in old(irqs) && t !in old(iips) ==> H.Opens(setup, incoming, t)
    {
      hide H.Inv, H.Links, H.ToldToApp, H.AnswerInvite, H.AnswerRegistered, H.AddIncomingInvite;
      setup := H.Nothing;
      if t in irqs {
        AnswerRegistered(t, found);
      } else if t in iips {
        AnswerInvite(t, a);
      } else {
        match incoming
        case NoRequest =>
        case Plain(irq) =>
          setup := H.PlainRequest(irq);
          R.PlainRequestKeeps(View(), irq);
          AnswerPlain(irq);
        case InviteOrSubscribe(irq, leg, dialogId, inviteDialog) =>
          setup := AddIncomingInvite(t, irq, leg, dialogId, inviteDialog);
          R.NewDialogAnswerOk(old(View()), t, setup, a);
          AnswerInvite(t, a);
      }
    }

    // ---------- any other request inside a dialog ----------

    method HoldUpdate(dlg: SipDialog, t: Txn, irq: Irq)
      requires dlg in recs && Mirrors()
      modifies this`recs, dlg
      ensures View() == H.HoldUpdate(old(View()), dlg, t, irq) && Mirrors()
    {
      dlg.updateIrq, dlg.updateTxn := Some(irq), t;
      recs := recs[dlg := dlg.Rec()];
    }

    method HoldAndRegister(dlg: SipDialog, t: Txn, irq: Irq)
      requires dlg in recs && Mirrors() && t !in irqs
      modifies this`recs, this`irqs, this`owner, dlg
      ensures View() == S.RegisterIrq(H.HoldUpdate(old(View()), dlg, t, irq), t, irq, S.Of(dlg)) && Mirrors()
    {
      hide H.HoldUpdate;
      HoldUpdate(dlg, t, irq);
      AddIncomingRequestTransaction(t, irq, S.Of(dlg));
    }

    method Refuse(dlg: SipDialog, t: Txn, irq: Irq)
      requires dlg in recs && Mirrors() && irq !in destroyed
      modifies this`recs, this`destroyed, dlg
      ensures View() == S.Destroy(S.DropPending(old(View()), dlg, t), irq) && Mirrors()
    {
      hide S.DropPending;
      DropPending(dlg, t);
      NtaIncomingDestroy(irq);
    }

    /** The default branch of processRequestInsideDialog, once the dialog is known. */
    method RequestFor(dlg: SipDialog, leg: Leg, irq: Irq, t: Txn, m: H.Method, r: H.Routing)
      requires Valid() && dlg in recs && I.Loose(View(), irq) && H.FreshTxn(View(), t)
      modifies this, recs.Keys
      ensures H.Links(old(View())) && View() == H.RequestFor(old(View()), dlg, leg, irq, t, m, r) && Valid()
    {
      hide H.Inv, H.Links, H.FreshTxn, I.Loose, H.Register, H.ToldToApp, S.AddPending, S.DropPending, H.HoldUpdate;
      I.TableFacts(View());
      R.RequestForKeeps(View(), dlg, leg, irq, t, m, r);
      var status, held := dlg.status, dlg.updateIrq;
      if !m.Bye_? {
        AddPending(dlg, t);
      }
      if (m.Invite_? || m.Update_?) && r.tooSmall {
        return;
      }
      if !r.routed && status < 200 {
        match m
        case OutOfDialogCapable_ | NotifyTerminated_ =>
          Refuse(dlg, t, irq);
          return;
        case Update_ =>
          if held.None? {
            HoldAndRegister(dlg, t, irq);
          }
          return;
        case _ =>
      }
      if !r.routed && status >= 200 && !m.Bye_? {
        NtaIncomingDestroy(irq);
        return;
      }
      Register(dlg, leg, irq, t, m, r);
    }

    /** The request goes into the irq table; a BYE or a final NOTIFY also ends the dialog. */
    method Register(dlg: SipDialog, leg: Leg, irq: Irq, t: Txn, m: H.Method, r: H.Routing)
      requires dlg in recs && Mirrors() && t !in irqs
      requires var s2 := S.RegisterIrq(View(), t, irq, if m.Bye_? then S.Bye else S.Of(dlg));
        H.Inv(s2) && H.ToldToApp(s2, t)
      modifies this, recs.Keys
      ensures S.Tracked(old(View())) && View() == H.Register(old(View()), dlg, leg, irq, t, m, r) && Valid()
    {
      hide H.Inv, H.Links, H.ToldToApp, H.EndDialog;
      I.TableFacts(S.RegisterIrq(View(), t, irq, if m.Bye_? then S.Bye else S.Of(dlg)));
      AddIncomingRequestTransaction(t, irq, if m.Bye_? then S.Bye else S.Of(dlg));
      if m.Bye_? || (m.NotifyTerminated_? && !dlg.inviteDialog) {
        EndDialog(dlg, leg, t, r.routed);
      }
    }

    method OtherRequest(leg: Leg, irq: Irq, t: Txn, m: H.Method, r: H.Routing) returns (rc: int)
      requires Valid() && H.FreshIrq(View(), irq) && H.FreshTxn(View(), t)
      modifies this, recs.Keys
      ensures H.Links(old(View())) && View() == H.OtherRequest(old(View()), leg, irq, t, m, r) && Valid()
      ensures rc == if S.DialogByLeg(S.Arrive(old(View()), irq), leg).None? then 481 else 0
    {
      hide H.Inv, H.Links, H.FreshIrq, I.Loose, H.RequestFor, S.DialogByLeg;
      I.TableFacts(View());
      I.ArriveKeeps(View(), irq);
      seen := seen + {irq};
      var dlg := FindDialogByLeg(leg);
      if dlg.None? {
        return 481;
      }
      RequestFor(dlg.value, leg, irq, t, m, r);
      return 0;
    }

    /** processRequestInsideDialog of the controller above, for the legs of dialogs we were invited to;
        `untagged` when the To header has no tag. */
    method FromLeg(leg: Leg, irq: Irq, q: H.InDialog, valid: bool, untagged: bool) returns (rc: int)
      requires Valid() && H.FreshIrq(View(), irq) && (q.Another? ==> H.FreshTxn(View(), q.t))
      modifies this, recs.Keys
      ensures H.Links(old(View())) && View() == H.FromLeg(old(View()), leg, irq, q, valid, untagged) && Valid()
      ensures !valid ==> rc == 400
      ensures valid && H.OutOfOrder(old(View()), leg, q, untagged) ==> rc == 491
      ensures valid && S.DialogByLeg(old(View()), leg).None? ==> rc == -1
    {
      hide H.Inv, H.FreshIrq, H.FreshTxn, S.DialogByLeg, H.Inside, S.Arrive, S.Destroy, H.Links;
      I.TableFacts(View());
      var dlg := FindDialogByLeg(leg);
      if !valid {
        LeaveToStack(irq);
        return 400;
      }
      if dlg.None? {
        DestroyStale(irq);
        return -1;
      }
      if q.Another? && q.method_.Invite_? && untagged && dlg.value.status >= 200 {
        LeaveToStack(irq);
        return 491;
      }
      rc := Inside(leg, irq, q);
    }

    /** The stack answers with the status returned to it. */
    ghost method LeaveToStack(irq: Irq)
      requires Valid() && H.FreshIrq(View(), irq)
      modifies this`seen
      ensures View() == S.Arrive(old(View()), irq) && Valid()
    {
      hide H.Inv, H.FreshIrq;
      I.ArriveKeeps(View(), irq);
      seen := seen + {irq};
    }

    ghost method DestroyStale(irq: Irq)
      requires Valid() && H.FreshIrq(View(), irq)
      modifies this`seen, this`destroyed
      ensures View() == S.Destroy(S.Arrive(old(View()), irq), irq) && Valid()
    {
      hide H.Inv, H.FreshIrq, H.InNoTable;
      I.ArriveKeeps(View(), irq);
      I.DestroyKeeps(S.Arrive(View(), irq), irq);
      LeaveToStack(irq);
      NtaIncomingDestroy(irq);
    }

    method Inside(leg: Leg, irq: Irq, q: H.InDialog) returns (rc: int)
      requires Valid() && H.FreshIrq(View(), irq) && (q.Another? ==> H.FreshTxn(View(), q.t))
      modifies this, recs.Keys
      ensures H.Links(old(View())) && View() == H.Inside(old(View()), leg, irq, q) && Valid()
    {
      hide H.Inv, H.Links, H.FreshIrq, H.FreshTxn, H.AckRequest, H.CancelRequest, H.OtherRequest;
      rc := 0;
      match q
      case AnAck => AckRequest(leg, irq);
      case ACancel(forked) => rc := CancelRequest(leg, irq, forked);
      case Another(t, m, r) => rc := OtherRequest(leg, irq, t, m, r);
    }

    /** processPrack; `known` when the reliable response belongs to an invite in progress. */
    method PrackRequest(irq: Irq, t: Txn, known: bool)
      requires Valid() && H.FreshIrq(View(), irq) && H.FreshTxn(View(), t)
      modifies this`seen, this`irqs, this`owner
      ensures View() == H.PrackRequest(old(View()), irq, t, known) && Valid()
    {
      hide H.Inv;
      R.PrackKeeps(View(), irq, t, known);
      seen := seen + {irq};
      if known {
        AddIncomingRequestTransaction(t, irq, S.Prack);
      }
    }

    // ---------- requests the application sends ----------

    /** doSendRequestOutsideDialog, INVITE or SUBSCRIBE. */
    method SendInvite(t: Txn, leg: Leg, dialogId: DialogId, inviteDialog: bool, orq: Orq)
        returns (dlg: SipDialog)
      requires Valid() && forall e :: e in recs ==> recs[e].leg != leg && recs[e].txn != t
      modifies this
      ensures fresh(dlg) && Valid()
      ensures View() == H.SendInvite(old(View()), dlg, NewDialog(leg, t, dialogId, false, inviteDialog), orq)
    {
      hide H.Inv;
      dlg := new SipDialog(leg, t, dialogId, false, inviteDialog);
      R.SendInviteKeeps(View(), dlg, dlg.Rec(), orq);
      recs := recs[dlg := dlg.Rec()];
      if t !in iips {
        iips := iips[t := Iip(leg, None, Some(orq), dlg)];
      }
    }

    /** doSendRequestInsideDialog. */
    method SendInside(id: DialogId, m: H.Sent, fails: bool)
      requires Valid()
      modifies this, recs.Keys
      ensures H.Links(old(View())) && View() == H.SendInside(old(View()), id, m, fails) && Valid()
    {
      hide H.Inv, S.IipClearLeg, S.SdClearId, S.IipByLeg, S.StableById;
      I.TableFacts(View());
      R.SendInsideKeeps(View(), id, m, fails);
      var found := FindStableById(id);
      if found.None? {
        return;
      }
      var dlg := found.value;
      match m
      case SentBye =>
        var t := FindIipByLeg(dlg.leg);
        if t.Some? && iips[t.value].orq.Some? {
          IipClearLeg(dlg.leg);
        }
      case SentAck(ackBye) =>
        if !fails && dlg.status == 200 {
          IipClearLeg(dlg.leg);
          if ackBye {
            SdClearPtr(dlg);
          }
        } else if !fails {
          SdClearId(dlg.dialogId);
        }
      case SentInvite(orq) =>
        if !fails && dlg.txn !in iips {
          iips := iips[dlg.txn := Iip(dlg.leg, None, Some(orq), dlg)];
        }
      case SentOther =>
    }

    /** processResponseOutsideDialog, for an INVITE or SUBSCRIBE. */
    method ResponseOutside(t: Txn, status: nat, subscribe: bool, reliable: bool)
      requires Valid() && t in iips && H.Links(View()) && !recs[iips[t].dlg].uas
      modifies this, recs.Keys
      ensures H.Links(old(View())) && Valid()
      ensures View() == H.ResponseOutside(old(View()), t, status, subscribe, reliable)
    {
      hide H.Inv, S.IipClear, S.SdInsert;
      I.TableFacts(View());
      R.ResponseStatusKeeps(View(), t, status);
      var dlg := iips[t].dlg;
      SetStatus(dlg, status);
      if (!subscribe && (status == 200 || (100 < status < 200 && reliable))) ||
         (subscribe && (status == 202 || status == 200)) {
        SdInsert(dlg);
      }
      if status > 200 {
        IipClear(t);
      }
    }

    // ---------- the destructor ----------

    /** ~SipDialog: no irq of the dialog's own requests outlives it. */
    method DestroyDialog(dlg: SipDialog, txns: seq<Txn>)
      requires Valid() && H.Unreferenced(View(), dlg) && H.Lists(txns, View().dlgs[dlg].pending)
      modifies this`irqs, this`destroyed, this`recs
      ensures View() == H.Reap(old(View()), dlg, txns) && Valid()
      ensures recs == old(recs) - {dlg} && forall t :: t in old(recs)[dlg].pending ==> t !in irqs
    {
      hide H.Inv, H.Unreferenced, H.ClearDangling, S.TakeIrq;
      R.ReapKeeps(View(), dlg, txns);
      R.InvHoldsLive(View());
      ghost var start := View();
      var i := 0;
      while i < |txns|
        invariant 0 <= i <= |txns|
        invariant H.ClearDangling(View(), txns[i..]) == H.ClearDangling(start, txns)
        invariant recs == old(recs) && irqs.Keys <= old(irqs).Keys && owner == old(owner)
        invariant R.HoldsLive(View()) && forall t :: t in txns[..i] ==> t !in irqs
      {
        R.TakeNext(View(), txns[i..]);
        assert txns[i..][1..] == txns[i + 1..];
        TakeIrq(txns[i]);
        i := i + 1;
      }
      R.NothingLeft(View(), txns[i..]);
      recs := recs - {dlg};
    }
  }
}
