/** Every handler keeps the dialog invariant, so every run of the dialog controller does. */
module DialogRuns {
  import opened Wrappers
  import opened SipDialogs
  import opened DialogSpec
  import opened DialogHandlers
  import opened DialogInvariant

  // ---------- the application answers a request ----------

  lemma RememberInviteKeeps(s: State, d: SipDialog, irq: Irq)
    requires Inv(s) && d in s.dlgs && s.dlgs[d].txn in s.iips
    requires s.iips[s.dlgs[d].txn].dlg == d && s.iips[s.dlgs[d].txn].irq == Some(irq)
    ensures Inv(SetDlg(s, d, s.dlgs[d].(inviteIrq := Some(irq))))
  {
    var r := s.dlgs[d].(inviteIrq := Some(irq));
    RecordLinked(s.iips, s.stable, s.dlgs, d, r);
    RecordTimers(s.queueG, s.queueH, s.lost, s.nextTimer, s.dlgs, d, r);
    RecordOwners(s.irqs, s.owner, s.dlgs, d, r);
    assert InviteIrqs(s.iips, s.dlgs[d := r]);
  }

  lemma AnsweredKeeps(s: State, t: Txn, irq: Irq, a: Answer)
    requires Inv(s) && t in s.iips && s.iips[t].irq == Some(irq)
    requires
      var r := s.dlgs[s.iips[t].dlg];
      r.status >= 200 && r.timerG.None? && r.timerH.None?
    ensures Inv(Answered(s, s.iips[t].dlg, irq, a))
  {
    hide Linked, InviteIrqs, TimersG, TimersH, Irqs, Owners, Updates;
    IipFacts(s, t);
    var d := s.iips[t].dlg;
    SdInsertKeeps(s, d);
    var s1 := SdInsert(s, d);
    if a.datagram {
      AddTimerGKeeps(s1, d, a.lostG);
    }
    var s2 := if a.datagram then AddTimerG(s1, d, a.lostG) else s1;
    AddTimerHKeeps(s2, d, a.lostH);
    RememberInviteKeeps(AddTimerH(s2, d, a.lostH), d, irq);
  }

  lemma AnswerUpdateKeeps(s: State, d: SipDialog)
    requires Inv(s) && d in s.dlgs && s.dlgs[d].updateIrq.Some?
    ensures Inv(AnswerUpdate(s, d))
    ensures s.dlgs[d].updateIrq.value !in s.destroyed
  {
    hide Linked, InviteIrqs, TimersG, TimersH, Irqs, Owners, Updates;
    DialogFacts(s, d);
    var r := s.dlgs[d];
    var s0 := SetDlg(s, d, r.(updateIrq := None, updateTxn := 0));
    RecordKeeps(s, d, r.(updateIrq := None, updateTxn := 0));
    UnregisterKeeps(s0, r.updateTxn);
    var s1 := s0.(irqs := s0.irqs - {r.updateTxn});
    hide SetDlg, DropPending, Destroy;
    DropPendingKeeps(s1, d, r.updateTxn);
    DropPendingLoose(s1, d, r.updateTxn, r.updateIrq.value);
    DestroyKeeps(DropPending(s1, d, r.updateTxn), r.updateIrq.value);
    InOneGo(s, d);
  }

  lemma DropPendingLoose(s: State, d: SipDialog, t: Txn, irq: Irq)
    requires d in s.dlgs && Loose(s, irq)
    ensures Loose(DropPending(s, d, t), irq)
  {
  }

  /** The code drops the fields of a held UPDATE one after the other. */
  lemma InOneGo(s: State, d: SipDialog)
    requires d in s.dlgs && s.dlgs[d].updateIrq.Some?
    ensures
      var r := s.dlgs[d];
      var s0 := SetDlg(s, d, r.(updateIrq := None, updateTxn := 0));
      var s1 := s0.(irqs := s0.irqs - {r.updateTxn});
      Destroy(DropPending(s1, d, r.updateTxn), r.updateIrq.value) == AnswerUpdate(s, d)
  {
    var r := s.dlgs[d];
    var s0 := SetDlg(s, d, r.(updateIrq := None, updateTxn := 0));
    var u := Destroy(DropPending(s0.(irqs := s0.irqs - {r.updateTxn}), d, r.updateTxn), r.updateIrq.value);
    assert u.dlgs == AnswerUpdate(s, d).dlgs;
  }

  lemma SendAnswerKeeps(s: State, t: Txn, a: Answer)
    requires Inv(s) && t in s.iips && s.iips[t].irq.Some? && s.iips[t].dlg in s.dlgs
    requires s.dlgs[s.iips[t].dlg].status < 200
    ensures Tracked(s) && Inv(SetDlg(s, s.iips[t].dlg, s.dlgs[s.iips[t].dlg].(status := a.code)))
    ensures Inv(SendAnswer(s, t, a))
  {
    hide Linked, InviteIrqs, TimersG, TimersH, Irqs, Owners, Updates;
    TableFacts(s);
    IipFacts(s, t);
    var d := s.iips[t].dlg;
    DialogFacts(s, d);
    var s1 := SetDlg(s, d, s.dlgs[d].(status := a.code));
    RecordKeeps(s, d, s.dlgs[d].(status := a.code));
    if (100 < a.code < 200 && !a.subscribe && a.reliable) || !a.sendOk {
    } else if a.subscribe {
      if a.code == 202 || a.code == 200 {
        SdInsertKeeps(s1, d);
      }
      IipClearKeeps(if a.code == 202 || a.code == 200 then SdInsert(s1, d) else s1, t);
    } else if a.code == 200 {
      AnsweredKeeps(s1, t, s.iips[t].irq.value, a);
    }
  }

  lemma AnswerInviteKeeps(s: State, t: Txn, a: Answer)
    requires Inv(s) && t in s.iips && InviteAnswerOk(s, t, a)
    ensures Inv(AnswerInvite(s, t, a))
  {
    hide Linked, InviteIrqs, TimersG, TimersH, Irqs, Owners, Updates, SendAnswer;
    TableFacts(s);
    IipFacts(s, t);
    var d := s.iips[t].dlg;
    if s.dlgs[d].updateIrq.Some? && a.cseqUpdate {
      AnswerUpdateKeeps(s, d);
    } else if s.dlgs[d].status < 200 {
      SendAnswerKeeps(s, t, a);
    }
  }

  lemma AddIncomingInviteKeeps(s: State, t: Txn, setup: Setup)
    requires Inv(s) && setup.NewDialogFor? && SetupOk(s, t, setup) && t !in s.iips
    ensures Inv(AddIncomingInvite(s, t, setup)) && t in AddIncomingInvite(s, t, setup).iips
    ensures AddIncomingInvite(s, t, setup).iips[t].dlg == setup.dlg
    ensures setup.dlg in AddIncomingInvite(s, t, setup).dlgs && AddIncomingInvite(s, t, setup).dlgs[setup.dlg].uas
  {
    hide Linked, InviteIrqs, TimersG, TimersH, Irqs, Owners, Updates;
    ArriveKeeps(s, setup.irq);
    NewDialogKeeps(Arrive(s, setup.irq), setup.dlg, setup.rec);
    IipInsertKeeps(SetDlg(Arrive(s, setup.irq), setup.dlg, setup.rec), t,
                   Iip(setup.rec.leg, Some(setup.irq), None, setup.dlg));
  }

  lemma AnswerRegisteredKeeps(s: State, t: Txn, found: Option<SipDialog>)
    requires Inv(s) && t in s.irqs && ToldToApp(s, t) && (found.Some? ==> found.value in s.dlgs)
    ensures Inv(AnswerRegistered(s, t, found)) && s.irqs[t] !in s.destroyed
  {
    hide Linked, InviteIrqs, TimersG, TimersH, Irqs, Owners, Updates;
    UnregisterKeeps(s, t);
    var s1 := s.(irqs := s.irqs - {t});
    if found.Some? {
      DropPendingKeeps(s1, found.value, t);
    }
    DestroyKeeps(if found.Some? then DropPending(s1, found.value, t) else s1, s.irqs[t]);
  }

  lemma PlainRequestKeeps(s: State, irq: Irq)
    requires Inv(s) && InNoTable(s, irq)
    ensures Inv(AnswerPlain(s, irq))
    ensures AnswerPlain(s, irq).destroyed[irq] == s.destroyed[irq] + 1
  {
    hide Linked, InviteIrqs, TimersG, TimersH, Owners, Updates;
    var r := AnswerPlain(s, irq);
    assert Irqs(r.iips, r.irqs, r.seen, r.destroyed, r.again);
  }

  lemma NewDialogAnswerOk(s: State, t: Txn, setup: Setup, a: Answer)
    requires Inv(s) && setup.NewDialogFor? && SetupOk(s, t, setup) && t !in s.iips
    ensures var r := AddIncomingInvite(s, t, setup);
      Links(r) && t in r.iips && InviteAnswerOk(r, t, a)
  {
    hide Linked, InviteIrqs, TimersG, TimersH, Irqs, Owners, Updates, AddIncomingInvite;
    AddIncomingInviteKeeps(s, t, setup);
    TableFacts(AddIncomingInvite(s, t, setup));
  }

  lemma RespondKeeps(s: State, t: Txn, a: Answer, setup: Setup, found: Option<SipDialog>)
    requires Inv(s) && SetupOk(s, t, setup) && AnswerOk(s, t, a) && ToldToApp(s, t)
    requires found.Some? ==> found.value in s.dlgs
    ensures Inv(Respond(s, t, a, setup, found))
  {
    hide Linked, InviteIrqs, TimersG, TimersH, Irqs, Owners, Updates, AddIncomingInvite;
    TableFacts(s);
    if t in s.irqs {
      AnswerRegisteredKeeps(s, t, found);
    } else if t in s.iips {
      AnswerInviteKeeps(s, t, a);
    } else {
      match setup
      case Nothing =>
      case PlainRequest(irq) => PlainRequestKeeps(s, irq);
      case NewDialogFor(_, _, _) =>
        AddIncomingInviteKeeps(s, t, setup);
        NewDialogAnswerOk(s, t, setup, a);
        AnswerInviteKeeps(AddIncomingInvite(s, t, setup), t, a);
    }
  }

  // ---------- requests inside a dialog ----------

  lemma IipClearFrame(s: State, t: Txn, irq: Irq)
    requires Inv(s) && t in s.iips && Loose(s, irq)
    ensures Loose(IipClear(s, t), irq)
  {
    hide Linked, InviteIrqs, TimersG, TimersH, Irqs, Owners, Updates;
    IipClearKeeps(s, t);
  }

  lemma AckedKeeps(s: State, leg: Leg, irq: Irq)
    requires Inv(s) && Loose(s, irq)
    ensures Tracked(s) && Inv(Acked(s, leg)) && Loose(Acked(s, leg), irq)
  {
    hide Linked, InviteIrqs, TimersG, TimersH, Irqs, Owners, Updates;
    TableFacts(s);
    var t := IipByLeg(s.iips, leg);
    if t.Some? {
      var d := s.iips[t.value].dlg;
      IipFacts(s, t.value);
      IipClearKeeps(s, t.value);
      IipClearFrame(s, t.value, irq);
      ClearSipTimersKeeps(IipClear(s, t.value), d);
    } else {
      var d := StableByLeg(s, leg);
      if d.Some? {
        ClearSipTimersKeeps(s, d.value);
      }
    }
  }

  lemma AckKeeps(s: State, leg: Leg, irq: Irq)
    requires Inv(s) && FreshIrq(s, irq)
    ensures Links(s) && Inv(Arrive(s, irq)) && Inv(AckRequest(s, leg, irq))
    ensures irq !in Acked(Arrive(s, irq), leg).destroyed
  {
    hide Linked, InviteIrqs, TimersG, TimersH, Irqs, Owners, Updates, Acked;
    TableFacts(s);
    ArriveKeeps(s, irq);
    AckedKeeps(Arrive(s, irq), leg, irq);
    DestroyKeeps(Acked(Arrive(s, irq), leg), irq);
  }

  /** The CANCEL branch has no break: the code falls into the default branch, and that second
      lookup always fails, so the request ends with 481 and nothing else changes. */
  lemma CancelKeeps(s: State, leg: Leg, irq: Irq, forked: bool)
    requires Inv(s) && FreshIrq(s, irq)
    ensures Links(s) && Inv(Arrive(s, irq)) && Inv(CancelRequest(s, leg, irq, forked))
    ensures !forked ==> DialogByLeg(CancelRequest(s, leg, irq, forked), leg).None?
  {
    hide Linked, InviteIrqs, TimersG, TimersH, Irqs, Owners, Updates;
    TableFacts(s);
    ArriveKeeps(s, irq);
    var s0 := Arrive(s, irq);
    var d := DialogByLeg(s0, leg);
    if !forked && d.Some? {
      ClearSipTimersKeeps(s0, d.value);
      var s1 := ClearSipTimers(s0, d.value);
      SdClearKeeps(s1, SdClearLeg(s1, leg));
      IipClearLegKeeps(SdClearLeg(s1, leg), leg);
    }
  }

  lemma RegisteredLive(s: State)
    requires Inv(s)
    ensures forall t :: t in s.irqs ==> s.irqs[t] !in s.destroyed
  {
  }

  lemma EndDialogKeeps(s: State, d: SipDialog, leg: Leg, t: Txn, routed: bool)
    requires Inv(s) && d in s.dlgs && (routed || ToldToApp(s, t))
    ensures Links(s) && Inv(EndDialog(s, d, leg, t, routed))
    ensures
      var s1 := SdClearLeg(ClearSipTimers(s, d), leg);
      Inv(if routed then s1 else TakeIrq(s1, t)) && (t in s.irqs ==> s.irqs[t] !in s.destroyed)
  {
    hide Linked, InviteIrqs, TimersG, TimersH, Irqs, Owners, Updates;
    TableFacts(s);
    RegisteredLive(s);
    ClearSipTimersKeeps(s, d);
    var s0 := ClearSipTimers(s, d);
    var s1 := SdClearLeg(s0, leg);
    SdClearKeeps(s0, s1);
    if !routed {
      TakeIrqKeeps(s1, t);
    }
    var s2 := if routed then s1 else TakeIrq(s1, t);
    if s.dlgs[d].txn in s2.iips {
      IipClearKeeps(s2, s.dlgs[d].txn);
    }
  }

  lemma HoldUpdateKeeps(s: State, d: SipDialog, t: Txn, irq: Irq)
    requires Inv(s) && d in s.dlgs && t in s.irqs && s.irqs[t] == irq && s.owner[t] == Of(d)
    ensures Inv(HoldUpdate(s, d, t, irq))
  {
    var r := s.dlgs[d].(updateIrq := Some(irq), updateTxn := t);
    RecordLinked(s.iips, s.stable, s.dlgs, d, r);
    RecordInviteIrqs(s.iips, s.dlgs, d, r);
    RecordTimers(s.queueG, s.queueH, s.lost, s.nextTimer, s.dlgs, d, r);
    RecordOwners(s.irqs, s.owner, s.dlgs, d, r);
    assert Updates(s.irqs, s.owner, s.dlgs[d := r]);
  }

  /** Registering a new irq for a dialog's request, or for a BYE. */
  lemma RegisterForKeeps(s: State, d: SipDialog, t: Txn, irq: Irq, m: Method)
    requires Inv(s) && d in s.dlgs && Loose(s, irq) && FreshTxn(s, t)
    ensures
      var s1 := if m.Bye_? then s else AddPending(s, d, t);
      Inv(s1) && Loose(s1, irq) && Inv(RegisterIrq(s1, t, irq, if m.Bye_? then Bye else Of(d)))
      && ToldToApp(RegisterIrq(s1, t, irq, if m.Bye_? then Bye else Of(d)), t)
  {
    hide Linked, InviteIrqs, TimersG, TimersH, Irqs, Owners, Updates;
    if !m.Bye_? {
      AddPendingKeeps(s, d, t);
    }
    NotAnUpdate(s, t);
    RegisterKeeps(if m.Bye_? then s else AddPending(s, d, t), t, irq, if m.Bye_? then Bye else Of(d));
  }

  lemma RequestForKeeps(s: State, d: SipDialog, leg: Leg, irq: Irq, t: Txn, m: Method, r: Routing)
    requires Inv(s) && d in s.dlgs && Loose(s, irq) && FreshTxn(s, t)
    ensures Tracked(s) && Inv(RequestFor(s, d, leg, irq, t, m, r))
    ensures irq !in s.destroyed && t !in s.irqs
    ensures
      var s1 := if m.Bye_? then s else AddPending(s, d, t);
      var s2 := RegisterIrq(s1, t, irq, if m.Bye_? then Bye else Of(d));
      Inv(s2) && ToldToApp(s2, t)
  {
    hide Linked, InviteIrqs, TimersG, TimersH, Irqs, Owners, Updates, EndDialog;
    TableFacts(s);
    RegisterForKeeps(s, d, t, irq, m);
    var s1 := if m.Bye_? then s else AddPending(s, d, t);
    var s2 := RegisterIrq(s1, t, irq, if m.Bye_? then Bye else Of(d));
    if (m.Invite_? || m.Update_?) && r.tooSmall {
    } else if !r.routed && s.dlgs[d].status < 200 && (m.OutOfDialogCapable_? || m.NotifyTerminated_?) {
      DropPendingKeeps(s1, d, t);
      DestroyKeeps(DropPending(s1, d, t), irq);
    } else if !r.routed && s.dlgs[d].status < 200 && m.Update_? {
      HoldUpdateKeeps(s2, d, t, irq);
    } else if !r.routed && s.dlgs[d].status >= 200 && !m.Bye_? {
      DestroyKeeps(s1, irq);
    } else if m.Bye_? || (m.NotifyTerminated_? && !s.dlgs[d].inviteDialog) {
      EndDialogKeeps(s2, d, leg, t, r.routed);
    }
  }

  lemma OtherRequestKeeps(s: State, leg: Leg, irq: Irq, t: Txn, m: Method, r: Routing)
    requires Inv(s) && FreshIrq(s, irq) && FreshTxn(s, t)
    ensures Inv(OtherRequest(s, leg, irq, t, m, r))
  {
    hide Linked, InviteIrqs, TimersG, TimersH, Irqs, Owners, Updates, RequestFor;
    TableFacts(s);
    ArriveKeeps(s, irq);
    var d := DialogByLeg(Arrive(s, irq), leg);
    if d.Some? {
      RequestForKeeps(Arrive(s, irq), d.value, leg, irq, t, m, r);
    }
  }

  lemma InsideKeeps(s: State, leg: Leg, irq: Irq, q: InDialog)
    requires Inv(s) && FreshIrq(s, irq) && (q.Another? ==> FreshTxn(s, q.t))
    ensures Links(s) && Inv(Inside(s, leg, irq, q))
  {
    hide Inv, AckRequest, CancelRequest, OtherRequest;
    TableFacts(s);
    match q
    case AnAck => AckKeeps(s, leg, irq);
    case ACancel(forked) => CancelKeeps(s, leg, irq, forked);
    case Another(t, m, r) => OtherRequestKeeps(s, leg, irq, t, m, r);
  }

  lemma FromLegKeeps(s: State, leg: Leg, irq: Irq, q: InDialog, valid: bool, untagged: bool)
    requires Inv(s) && FreshIrq(s, irq) && (q.Another? ==> FreshTxn(s, q.t))
    ensures Links(s) && Inv(Arrive(s, irq)) && Inv(FromLeg(s, leg, irq, q, valid, untagged))
    ensures irq !in s.destroyed
  {
    hide Inv, Inside, OutOfOrder, DialogByLeg;
    TableFacts(s);
    ArriveKeeps(s, irq);
    TableFacts(Arrive(s, irq));
    DestroyKeeps(Arrive(s, irq), irq);
    InsideKeeps(s, leg, irq, q);
  }

  /** No request that finds no dialog keeps its irq: it is destroyed, and nothing else changes. */
  lemma StaleRequestDestroyed(s: State, leg: Leg, irq: Irq, q: InDialog, untagged: bool)
    requires Inv(s) && FreshIrq(s, irq) && Tracked(s) && DialogByLeg(s, leg).None?
    ensures FromLeg(s, leg, irq, q, true, untagged) == Destroy(Arrive(s, irq), irq)
    ensures FromLeg(s, leg, irq, q, true, untagged).destroyed[irq] == 1
  {
    ArriveKeeps(s, irq);
    hide Linked, InviteIrqs, TimersG, TimersH, Irqs, Owners, Updates, DialogByLeg;
  }

  // ---------- callbacks, timers ----------

  lemma IrqCallbackKeeps(s: State, irq: Irq, e: IrqEvent)
    requires Inv(s)
    ensures Inv(IrqCallback(s, irq, e))
  {
    hide Linked, InviteIrqs, TimersG, TimersH, Irqs, Owners, Updates;
    TableFacts(s);
    var t := IipByIrq(s.iips, irq);
    if t.Some? {
      var d := s.iips[t.value].dlg;
      match e
      case NoSip =>
        ClearSipTimersKeeps(s, d);
        IipClearKeeps(ClearSipTimers(s, d), t.value);
      case Cancel => IipClearKeeps(s, t.value);
      case Ack =>
        IipClearKeeps(s, t.value);
        ClearSipTimersKeeps(IipClear(s, t.value), d);
      case Discarded =>
    }
  }

  lemma PrackKeeps(s: State, irq: Irq, t: Txn, found: bool)
    requires Inv(s) && FreshIrq(s, irq) && FreshTxn(s, t)
    ensures Inv(PrackRequest(s, irq, t, found))
  {
    ArriveKeeps(s, irq);
    if found {
      RegisterKeeps(Arrive(s, irq), t, irq, Prack);
    }
  }

  /** The entry that fires is the dialog's own, so taking both away is stopping the timer. */
  lemma TimerGStops(s: State, h: Timer, lost: bool)
    requires Inv(s) && h in s.queueG && s.queueG[h] in s.dlgs
    requires s.dlgs[s.queueG[h]].timerG == Some(h) && s.dlgs[s.queueG[h]].inviteIrq.None?
    ensures TimerGFires(s, h, lost) == ClearSipTimers(s, s.queueG[h])
  {
    hide Inv;
    var d := s.queueG[h];
    assert TimerGFires(s, h, lost).dlgs == ClearSipTimers(s, d).dlgs;
  }

  lemma TimerGRearms(s: State, h: Timer, lost: bool)
    requires Inv(s) && h in s.queueG && s.queueG[h] in s.dlgs
    requires s.dlgs[s.queueG[h]].timerG == Some(h) && s.dlgs[s.queueG[h]].inviteIrq.Some?
    requires s.dlgs[s.queueG[h]].uas && s.dlgs[s.queueG[h]].status >= 200
    ensures Inv(TimerGFires(s, h, lost))
  {
    hide Linked, InviteIrqs, TimersG, TimersH, Irqs, Owners, Updates;
    var d := s.queueG[h];
    StopKeeps(s, d, s.dlgs[d].(timerG := None));
    var s1 := StopG(s, d);
    var r := s1.dlgs[d].(durationG := Bumped(s.dlgs[d].durationG));
    RecordKeeps(s1, d, r);
    AddTimerGKeeps(SetDlg(s1, d, r), d, lost);
    assert AddTimerG(SetDlg(s1, d, r), d, lost).dlgs == TimerGFires(s, h, lost).dlgs;
  }

  lemma TimerGKeeps(s: State, h: Timer, lost: bool)
    requires Inv(s) && h in s.queueG
    ensures Inv(TimerGFires(s, h, lost))
  {
    hide Linked, InviteIrqs, TimersG, TimersH, Irqs, Owners, Updates;
    TableFacts(s);
    QueueFacts(s);
    var d := s.queueG[h];
    DialogFacts(s, d);
    if s.dlgs[d].inviteIrq.None? {
      TimerGStops(s, h, lost);
      ClearSipTimersKeeps(s, d);
    } else {
      TimerGRearms(s, h, lost);
    }
  }

  lemma TimerGFacts(s: State, h: Timer)
    requires Inv(s) && h in s.queueG
    ensures s.queueG[h] in s.dlgs && s.dlgs[s.queueG[h]].timerG == Some(h)
    ensures var r := s.dlgs[s.queueG[h]];
      && Live(r.timerH, s.queueH, s.lost)
      && (r.inviteIrq.Some? ==> r.inviteIrq.value !in s.destroyed)
  {
  }

  lemma TimerHFacts(s: State, h: Timer)
    requires Inv(s) && h in s.queueH
    ensures s.queueH[h] in s.dlgs && s.dlgs[s.queueH[h]].timerH == Some(h)
    ensures Live(s.dlgs[s.queueH[h]].timerG, s.queueG, s.lost)
    ensures Inv(ClearSipTimers(s, s.queueH[h]))
    ensures ClearSipTimers(s, s.queueH[h]) == AfterTimerH(s, h)
  {
    hide Linked, InviteIrqs, TimersG, TimersH, Irqs, Owners, Updates;
    QueueFacts(s);
    HandlesQueued(s, s.queueH[h]);
    ClearSipTimersKeeps(s, s.queueH[h]);
    assert ClearSipTimers(s, s.queueH[h]).dlgs == AfterTimerH(s, h).dlgs;
  }

  lemma ByeTimeoutKeeps(s: State, t: Txn)
    requires Inv(s) && t in s.owner && s.owner[t] == Bye
    ensures Inv(TakeIrq(s, t)) && (t in s.irqs ==> s.irqs[t] !in s.destroyed)
  {
    assert ToldToApp(s, t);
    TakeIrqKeeps(s, t);
  }

  lemma TimerHKeeps(s: State, h: Timer)
    requires Inv(s) && h in s.queueH
    ensures Inv(TimerHFires(s, h))
  {
    hide Linked, InviteIrqs, TimersG, TimersH, Irqs, Owners, Updates;
    TableFacts(s);
    QueueFacts(s);
    var d := s.queueH[h];
    assert s.dlgs[d].timerH == Some(h);
    var leg := s.dlgs[d].leg;
    TimerHFacts(s, h);
    var s1 := AfterTimerH(s, h);
    IipClearLegKeeps(s1, leg);
    var s2 := IipClearLeg(s1, leg);
    SdClearKeeps(s2, SdClearLeg(s2, leg));
  }

  // ---------- requests the application sends, and their responses ----------

  lemma SendInviteKeeps(s: State, d: SipDialog, rec: Dialog, orq: Orq)
    requires Inv(s) && FreshDialog(s, d, rec) && !rec.uas
    ensures Inv(SendInvite(s, d, rec, orq))
  {
    NewDialogKeeps(s, d, rec);
    IipInsertKeeps(SetDlg(s, d, rec), rec.txn, Iip(rec.leg, None, Some(orq), d));
  }

  lemma SendInsideKeeps(s: State, id: DialogId, m: Sent, fails: bool)
    requires Inv(s)
    ensures Inv(SendInside(s, id, m, fails))
  {
    hide Linked, InviteIrqs, TimersG, TimersH, Irqs, Owners, Updates;
    TableFacts(s);
    var od := StableById(s, id);
    if od.Some? {
      var d := od.value;
      DialogFacts(s, d);
      IipClearLegKeeps(s, s.dlgs[d].leg);
      match m
      case SentBye =>
      case SentAck(ackBye) =>
        var s1 := IipClearLeg(s, s.dlgs[d].leg);
        SdClearKeeps(s1, SdClearPtr(s1, d));
        SdClearKeeps(s, SdClearId(s, s.dlgs[d].dialogId));
      case SentInvite(orq) =>
        IipInsertKeeps(s, s.dlgs[d].txn, Iip(s.dlgs[d].leg, None, Some(orq), d));
      case SentOther =>
    }
  }

  lemma ResponseStatusKeeps(s: State, t: Txn, status: nat)
    requires Inv(s) && t in s.iips && s.iips[t].dlg in s.dlgs && !s.dlgs[s.iips[t].dlg].uas
    ensures Inv(SetDlg(s, s.iips[t].dlg, s.dlgs[s.iips[t].dlg].(status := status)))
  {
    RecordKeeps(s, s.iips[t].dlg, s.dlgs[s.iips[t].dlg].(status := status));
  }

  lemma ResponseOutsideKeeps(s: State, t: Txn, status: nat, subscribe: bool, reliable: bool)
    requires Inv(s) && t in s.iips && !s.dlgs[s.iips[t].dlg].uas
    ensures Inv(ResponseOutside(s, t, status, subscribe, reliable))
  {
    hide Linked, InviteIrqs, TimersG, TimersH, Irqs, Owners, Updates;
    TableFacts(s);
    ResponseStatusKeeps(s, t, status);
    var d := s.iips[t].dlg;
    var s1 := SetDlg(s, d, s.dlgs[d].(status := status));
    SdInsertKeeps(s1, d);
    IipClearKeeps(s1, t);
    IipClearKeeps(SdInsert(s1, d), t);
  }

  // ---------- the destructor ----------

  lemma {:induction false} ClearDanglingFrame(s: State, txns: seq<Txn>, dlgs: Dlgs)
    ensures ClearDangling(s.(dlgs := dlgs), txns) == ClearDangling(s, txns).(dlgs := dlgs)
    ensures ClearDangling(s, txns).dlgs == s.dlgs && ClearDangling(s, txns).iips == s.iips
    ensures ClearDangling(s, txns).stable == s.stable && ClearDangling(s, txns).owner == s.owner
    ensures ClearDangling(s, txns).queueG == s.queueG && ClearDangling(s, txns).queueH == s.queueH
    ensures ClearDangling(s, txns).again == s.again && ClearDangling(s, txns).lost == s.lost
    decreases |txns|
  {
    if txns != [] {
      ClearDanglingFrame(TakeIrq(s, txns[0]), txns[1..], dlgs);
      assert TakeIrq(s.(dlgs := dlgs), txns[0]) == TakeIrq(s, txns[0]).(dlgs := dlgs);
    }
  }

  lemma {:induction false} ClearDanglingKeeps(s: State, d: SipDialog, txns: seq<Txn>)
    requires Inv(s) && d in s.dlgs && s.dlgs[d].updateIrq.None?
    requires forall t :: t in txns ==> t in s.dlgs[d].pending
    ensures Inv(ClearDangling(s, txns))
    ensures ClearDangling(s, txns).irqs.Keys == s.irqs.Keys - set t | t in txns
    decreases |txns|
  {
    hide Linked, InviteIrqs, TimersG, TimersH, Irqs, Owners, Updates;
    if txns != [] {
      NotAnUpdate(s, txns[0]);
      TakeIrqKeeps(s, txns[0]);
      ClearDanglingKeeps(TakeIrq(s, txns[0]), d, txns[1..]);
      assert (set t | t in txns) == {txns[0]} + set t | t in txns[1..];
    } else {
      assert (set t | t in txns) == {};
    }
  }

  lemma ForgetDialog(s: State, d: SipDialog)
    requires Inv(s) && Unreferenced(s, d)
    requires forall t :: t in s.dlgs[d].pending ==> t !in s.irqs
    ensures Inv(s.(dlgs := s.dlgs - {d}))
  {
    ForgetInTables(s, d);
    ForgetInQueues(s, d);
    ForgetInIrqs(s, d);
    hide Linked, InviteIrqs, TimersG, TimersH, Irqs, Owners, Updates, Unreferenced;
  }

  lemma ForgetInTables(s: State, d: SipDialog)
    requires Inv(s) && Unreferenced(s, d)
    ensures Linked(s.iips, s.stable, s.dlgs - {d}) && InviteIrqs(s.iips, s.dlgs - {d})
  {
    hide TimersG, TimersH, Irqs, Owners, Updates;
  }

  lemma ForgetInQueues(s: State, d: SipDialog)
    requires Inv(s) && Unreferenced(s, d)
    ensures TimersG(s.queueG, s.lost, s.nextTimer, s.dlgs - {d}) && TimersH(s.queueH, s.lost, s.nextTimer, s.dlgs - {d})
  {
    hide Linked, InviteIrqs, Irqs, Owners, Updates;
  }

  lemma ForgetInIrqs(s: State, d: SipDialog)
    requires Inv(s) && Unreferenced(s, d)
    requires forall t :: t in s.dlgs[d].pending ==> t !in s.irqs
    ensures Owners(s.irqs, s.owner, s.dlgs - {d}) && Updates(s.irqs, s.owner, s.dlgs - {d})
  {
    hide Linked, InviteIrqs, TimersG, TimersH, Irqs;
  }

  lemma ReapKeeps(s: State, d: SipDialog, txns: seq<Txn>)
    requires Inv(s) && Unreferenced(s, d) && Lists(txns, s.dlgs[d].pending)
    ensures Inv(Reap(s, d, txns))
  {
    hide Linked, InviteIrqs, TimersG, TimersH, Irqs, Owners, Updates;
    var r := s.dlgs[d].(updateIrq := None);
    RecordKeeps(s, d, r);
    var s0 := SetDlg(s, d, r);
    ClearDanglingKeeps(s0, d, txns);
    ClearDanglingFrame(s0, txns, s0.dlgs);
    ClearDanglingFrame(s, txns, s0.dlgs);
    var s1 := ClearDangling(s0, txns);
    ForgetDialog(s1, d);
    assert s1.dlgs - {d} == s.dlgs - {d};
  }

  /** Distinct table entries hold distinct irqs, none of them destroyed. */
  ghost predicate HoldsLive(s: State) {
    && (forall t :: t in s.irqs ==> s.irqs[t] !in s.destroyed)
    && (forall t, u :: t in s.irqs && u in s.irqs && t != u ==> s.irqs[t] != s.irqs[u])
  }

  lemma InvHoldsLive(s: State)
    requires Inv(s)
    ensures HoldsLive(s)
  {
  }

  /** One round of the clean-up loop. */
  lemma TakeNext(s: State, txns: seq<Txn>)
    requires HoldsLive(s) && txns != []
    ensures ClearDangling(TakeIrq(s, txns[0]), txns[1..]) == ClearDangling(s, txns)
    ensures HoldsLive(TakeIrq(s, txns[0])) && TakeIrq(s, txns[0]).irqs.Keys == s.irqs.Keys - {txns[0]}
  {
  }

  lemma NothingLeft(s: State, txns: seq<Txn>)
    requires txns == []
    ensures ClearDangling(s, txns) == s
  {
  }
}
