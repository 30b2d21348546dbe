/** Which handlers add to the two histories of the dialog controller: destructions of an irq destroyed
    before, and timers whose entry was lost. */
module DialogHistory {
  import opened Wrappers
  import opened SipDialogs
  import opened DialogSpec
  import opened DialogHandlers
  import opened DialogInvariant
  import opened DialogRuns

  ghost predicate SameHistory(s: State, r: State) { r.again == s.again && r.lost == s.lost }

  // ---------- primitives ----------

  lemma IipClears(s: State, t: Txn)
    requires Tracked(s) && t in s.iips
    ensures SameHistory(s, IipClear(s, t))
  {
  }

  lemma IipClearsLeg(s: State, leg: Leg)
    requires Tracked(s)
    ensures SameHistory(s, IipClearLeg(s, leg))
  {
    hide IipClear;
    var t := IipByLeg(s.iips, leg);
    if t.Some? {
      IipClears(s, t.value);
    }
  }

  lemma SdInserts(s: State, d: SipDialog)
    requires Tracked(s) && d in s.dlgs
    ensures SameHistory(s, SdInsert(s, d)) && SdInsert(s, d).iips == s.iips
  {
  }

  // ---------- the application answers a request ----------

  lemma AnsweredHistory(s: State, d: SipDialog, irq: Irq, a: Answer)
    requires Tracked(s) && d in s.dlgs
    ensures Answered(s, d, irq, a).again == s.again
    ensures !a.lostG && !a.lostH ==> Answered(s, d, irq, a).lost == s.lost
  {
    hide SdInsert;
    SdInserts(s, d);
  }

  lemma SendAnswerHistory(s: State, t: Txn, a: Answer)
    requires Tracked(s) && t in s.iips && s.iips[t].irq.Some?
    ensures SendAnswer(s, t, a).again == s.again
    ensures !a.lostG && !a.lostH ==> SendAnswer(s, t, a).lost == s.lost
  {
    hide SdInsert, IipClear, Answered;
    var d := s.iips[t].dlg;
    var s1 := SetDlg(s, d, s.dlgs[d].(status := a.code));
    SdInserts(s1, d);
    IipClears(s1, t);
    IipClears(SdInsert(s1, d), t);
    AnsweredHistory(s1, d, s.iips[t].irq.value, a);
  }

  lemma AnswerInviteHistory(s: State, t: Txn, a: Answer)
    requires Tracked(s) && t in s.iips
    requires s.iips[t].irq.Some? || s.dlgs[s.iips[t].dlg].status >= 200
          || (a.cseqUpdate && s.dlgs[s.iips[t].dlg].updateIrq.Some?)
    ensures AnswerInvite(s, t, a).again == s.again
    ensures !a.lostG && !a.lostH ==> AnswerInvite(s, t, a).lost == s.lost
  {
    hide SendAnswer;
    if s.iips[t].irq.Some? {
      SendAnswerHistory(s, t, a);
    }
  }

  lemma MayAnswer(s: State, t: Txn, a: Answer)
    requires Inv(s) && t in s.iips && Tracked(s) && InviteAnswerOk(s, t, a)
    ensures s.iips[t].irq.Some? || s.dlgs[s.iips[t].dlg].status >= 200
         || (a.cseqUpdate && s.dlgs[s.iips[t].dlg].updateIrq.Some?)
  {
    hide InviteIrqs, TimersG, TimersH, Irqs, Owners, Updates;
  }

  lemma AnswerRegisteredHistory(s: State, t: Txn, found: Option<SipDialog>)
    requires t in s.irqs && (found.Some? ==> found.value in s.dlgs)
    ensures SameHistory(s, AnswerRegistered(s, t, found))
  {
  }

  /** Only a plain answer destroys an irq once more. */
  lemma RespondHistory(s: State, t: Txn, a: Answer, setup: Setup, found: Option<SipDialog>)
    requires Inv(s) && SetupOk(s, t, setup) && AnswerOk(s, t, a) && (found.Some? ==> found.value in s.dlgs)
    ensures
      var plain := t !in s.irqs && t !in s.iips && setup.PlainRequest? && setup.irq in s.destroyed;
      Respond(s, t, a, setup, found).again == if plain then s.again + multiset{setup.irq} else s.again
    ensures !a.lostG && !a.lostH ==> Respond(s, t, a, setup, found).lost == s.lost
  {
    hide Linked, InviteIrqs, TimersG, TimersH, Irqs, Owners, Updates;
    hide AnswerInvite, AnswerRegistered, AddIncomingInvite;
    TableFacts(s);
    if t in s.irqs {
      AnswerRegisteredHistory(s, t, found);
    } else if t in s.iips {
      MayAnswer(s, t, a);
      AnswerInviteHistory(s, t, a);
    } else if setup.NewDialogFor? {
      AddIncomingInviteKeeps(s, t, setup);
      NewDialogAnswerOk(s, t, setup, a);
      TableFacts(AddIncomingInvite(s, t, setup));
      MayAnswer(AddIncomingInvite(s, t, setup), t, a);
      InviteAdded(s, t, setup);
      AnswerInviteHistory(AddIncomingInvite(s, t, setup), t, a);
    }
  }

  lemma InviteAdded(s: State, t: Txn, setup: Setup)
    requires setup.NewDialogFor?
    ensures SameHistory(s, AddIncomingInvite(s, t, setup))
  {
  }

  // ---------- requests inside a dialog ----------

  lemma AckHistory(s: State, leg: Leg, irq: Irq)
    requires Tracked(s)
    ensures SameHistory(s, AckRequest(s, leg, irq))
  {
    hide IipClear;
    var s0 := Arrive(s, irq);
    var t := IipByLeg(s0.iips, leg);
    if t.Some? {
      IipClears(s0, t.value);
    }
  }

  lemma CancelHistory(s: State, leg: Leg, irq: Irq, forked: bool)
    requires Tracked(s)
    ensures SameHistory(s, CancelRequest(s, leg, irq, forked))
  {
    hide IipClearLeg, ClearSipTimers, SdClearLeg;
    var s0 := Arrive(s, irq);
    var d := DialogByLeg(s0, leg);
    if d.Some? {
      IipClearsLeg(SdClearLeg(ClearSipTimers(s0, d.value), leg), leg);
    }
  }

  lemma EndDialogHistory(s: State, d: SipDialog, leg: Leg, t: Txn, routed: bool)
    requires Tracked(s) && d in s.dlgs
    ensures SameHistory(s, EndDialog(s, d, leg, t, routed))
  {
    hide IipClear, ClearSipTimers, SdClearLeg;
    var s1 := SdClearLeg(ClearSipTimers(s, d), leg);
    var s2 := if routed then s1 else TakeIrq(s1, t);
    if s.dlgs[d].txn in s2.iips {
      IipClears(s2, s.dlgs[d].txn);
    }
  }

  lemma RegisterHistory(s: State, d: SipDialog, leg: Leg, irq: Irq, t: Txn, m: Method, r: Routing)
    requires Tracked(s) && d in s.dlgs
    ensures SameHistory(s, Register(s, d, leg, irq, t, m, r))
  {
    hide EndDialog;
    EndDialogHistory(RegisterIrq(s, t, irq, if m.Bye_? then Bye else Of(d)), d, leg, t, r.routed);
  }

  lemma RequestForHistory(s: State, d: SipDialog, leg: Leg, irq: Irq, t: Txn, m: Method, r: Routing)
    requires Tracked(s) && d in s.dlgs
    ensures SameHistory(s, RequestFor(s, d, leg, irq, t, m, r))
  {
    hide Register, Tracked;
    RegisterHistory(if m.Bye_? then s else AddPending(s, d, t), d, leg, irq, t, m, r) by {
      PendingTracked(s, d, t);
    }
  }

  lemma PendingTracked(s: State, d: SipDialog, t: Txn)
    requires Tracked(s) && d in s.dlgs
    ensures Tracked(AddPending(s, d, t))
  {
  }

  lemma RequestHistory(s: State, leg: Leg, irq: Irq, t: Txn, m: Method, r: Routing)
    requires Tracked(s)
    ensures SameHistory(s, OtherRequest(s, leg, irq, t, m, r))
  {
    hide RequestFor, DialogByLeg;
    var s0 := Arrive(s, irq);
    var d := DialogByLeg(s0, leg);
    if d.Some? {
      RequestForHistory(s0, d.value, leg, irq, t, m, r);
    }
  }

  lemma FromLegHistory(s: State, leg: Leg, irq: Irq, q: InDialog, valid: bool, untagged: bool)
    requires Tracked(s)
    ensures SameHistory(s, FromLeg(s, leg, irq, q, valid, untagged))
  {
    hide AckRequest, CancelRequest, OtherRequest, DialogByLeg, OutOfOrder, Tracked;
    match q
    case AnAck => AckHistory(s, leg, irq);
    case ACancel(forked) => CancelHistory(s, leg, irq, forked);
    case Another(t, m, r) => RequestHistory(s, leg, irq, t, m, r);
  }

  // ---------- callbacks, timers, the application's own requests ----------

  lemma CallbackHistory(s: State, irq: Irq, e: IrqEvent)
    requires Tracked(s)
    ensures SameHistory(s, IrqCallback(s, irq, e))
  {
    hide IipClear, ClearSipTimers;
    var t := IipByIrq(s.iips, irq);
    if t.Some? {
      IipClears(s, t.value);
      IipClears(ClearSipTimers(s, s.iips[t.value].dlg), t.value);
    }
  }

  lemma TimerGHistory(s: State, h: Timer, lost: bool)
    requires h in s.queueG && s.queueG[h] in s.dlgs
    ensures TimerGFires(s, h, lost).again == s.again
    ensures !lost ==> TimerGFires(s, h, lost).lost == s.lost
  {
    var s0 := s.(queueG := s.queueG - {h});
    StopHistory(s0, s.queueG[h]);
    RetransmitHistory(s0, s.queueG[h], lost);
    hide StopRetransmitting, Retransmit;
  }

  lemma StopHistory(s: State, d: SipDialog)
    requires d in s.dlgs
    ensures SameHistory(s, StopRetransmitting(s, d))
  {
  }

  lemma RetransmitHistory(s: State, d: SipDialog, lost: bool)
    requires d in s.dlgs
    ensures Retransmit(s, d, lost).again == s.again
    ensures !lost ==> Retransmit(s, d, lost).lost == s.lost
  {
  }

  lemma TimerHHistory(s: State, h: Timer)
    requires Tracked(s) && h in s.queueH && s.queueH[h] in s.dlgs
    ensures SameHistory(s, TimerHFires(s, h))
  {
    hide IipClearLeg;
    IipClearsLeg(AfterTimerH(s, h), s.dlgs[s.queueH[h]].leg);
  }

  lemma SendInsideHistory(s: State, id: DialogId, m: Sent, fails: bool)
    requires Tracked(s)
    ensures SameHistory(s, SendInside(s, id, m, fails))
  {
    hide IipClearLeg;
    var od := StableById(s, id);
    if od.Some? {
      IipClearsLeg(s, s.dlgs[od.value].leg);
    }
  }

  lemma ResponseHistory(s: State, t: Txn, status: nat, subscribe: bool, reliable: bool)
    requires Tracked(s) && t in s.iips
    ensures SameHistory(s, ResponseOutside(s, t, status, subscribe, reliable))
  {
    hide IipClear, SdInsert;
    var d := s.iips[t].dlg;
    var s1 := SetDlg(s, d, s.dlgs[d].(status := status));
    SdInserts(s1, d);
    IipClears(s1, t);
    IipClears(SdInsert(s1, d), t);
  }

  lemma ReapHistory(s: State, d: SipDialog, txns: seq<Txn>)
    requires Unreferenced(s, d)
    ensures SameHistory(s, Reap(s, d, txns))
  {
    ClearDanglingFrame(s, txns, s.dlgs);
  }
}
