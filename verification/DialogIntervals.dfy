/** On every run of the dialog controller timer G's interval is set only in a dialog that has been answered:
    what makes the first interval T1 (src/sip-dialog.hpp, src/sip-dialog-controller.cpp). */
module DialogIntervals {
  import opened Wrappers
  import opened SipDialogs
  import opened DialogSpec
  import opened DialogHandlers
  import opened DialogInvariant
  import opened DialogRuns
  import opened DialogTheorems
  import opened DialogEffects
  import H = DialogHistory

  lemma PutQuiet(s: State, d: SipDialog, r: Dialog)
    requires Quiet(s.dlgs) && (r.durationG == 0 || (r.uas && r.status >= 200))
    requires r.timerG.Some? ==> r.durationG > 0
    ensures Quiet(SetDlg(s, d, r).dlgs)
  {
  }

  lemma IipClearQuiet(s: State, t: Txn)
    requires Tracked(s) && t in s.iips && Quiet(s.dlgs)
    ensures Quiet(IipClear(s, t).dlgs)
  {
    PutQuiet(s, s.iips[t].dlg, s.dlgs[s.iips[t].dlg].(inviteIrq := None));
  }

  lemma IipClearLegQuiet(s: State, leg: Leg)
    requires Tracked(s) && Quiet(s.dlgs)
    ensures Quiet(IipClearLeg(s, leg).dlgs)
  {
    hide IipClear, Quiet;
    var t := IipByLeg(s.iips, leg);
    if t.Some? {
      IipClearQuiet(s, t.value);
    }
  }

  lemma ClearSipTimersQuiet(s: State, d: SipDialog)
    requires d in s.dlgs && Quiet(s.dlgs)
    ensures Quiet(ClearSipTimers(s, d).dlgs)
  {
  }

  // ---------- answers ----------

  lemma AnsweredQuiet(s: State, d: SipDialog, irq: Irq, a: Answer)
    requires Tracked(s) && d in s.dlgs && Quiet(s.dlgs) && s.dlgs[d].uas && s.dlgs[d].status >= 200
    ensures Quiet(Answered(s, d, irq, a).dlgs)
  {
    hide SdInsert, Tracked;
  }

  lemma SendAnswerQuiet(s: State, t: Txn, a: Answer)
    requires Tracked(s) && t in s.iips && s.iips[t].irq.Some? && Quiet(s.dlgs)
    requires s.dlgs[s.iips[t].dlg].status < 200 && s.dlgs[s.iips[t].dlg].uas
    ensures Quiet(SendAnswer(s, t, a).dlgs)
  {
    var d := s.iips[t].dlg;
    var r := s.dlgs[d].(status := a.code);
    PutQuiet(s, d, r);
    var s1 := SetDlg(s, d, r);
    IipClearQuiet(s1, t);
    IipClearQuiet(SdInsert(s1, d), t);
    if a.code == 200 {
      AnsweredQuiet(s1, d, s.iips[t].irq.value, a);
    }
    hide SdInsert, IipClear, Answered, Quiet;
  }

  lemma AnswerInviteQuiet(s: State, t: Txn, a: Answer)
    requires Inv(s) && Tracked(s) && t in s.iips && InviteAnswerOk(s, t, a) && Quiet(s.dlgs)
    ensures s.iips[t].irq.Some? || s.dlgs[s.iips[t].dlg].status >= 200
         || (a.cseqUpdate && s.dlgs[s.iips[t].dlg].updateIrq.Some?)
    ensures Quiet(AnswerInvite(s, t, a).dlgs)
  {
    H.MayAnswer(s, t, a);
    IipFacts(s, t);
    var d := s.iips[t].dlg;
    hide Inv, SendAnswer, Tracked;
    if s.dlgs[d].updateIrq.Some? && a.cseqUpdate {
      UpdateQuiet(s, d);
    } else if s.dlgs[d].status < 200 {
      hide Quiet;
      SendAnswerQuiet(s, t, a);
    }
  }

  lemma UpdateQuiet(s: State, d: SipDialog)
    requires d in s.dlgs && s.dlgs[d].updateIrq.Some? && Quiet(s.dlgs)
    ensures Quiet(AnswerUpdate(s, d).dlgs)
  {
  }

  lemma RespondQuiet(s: State, t: Txn, a: Answer, setup: Setup, found: Option<SipDialog>)
    requires Inv(s) && SetupOk(s, t, setup) && AnswerOk(s, t, a) && (found.Some? ==> found.value in s.dlgs)
    requires Quiet(s.dlgs)
    ensures Quiet(Respond(s, t, a, setup, found).dlgs)
  {
    hide Inv, AnswerInvite, AnswerRegistered, AddIncomingInvite, Quiet;
    TableFacts(s);
    if t in s.irqs {
      RegisteredQuiet(s, t, found);
    } else if t in s.iips {
      AnswerInviteQuiet(s, t, a);
    } else if setup.NewDialogFor? {
      AddIncomingInviteKeeps(s, t, setup);
      NewDialogAnswerOk(s, t, setup, a);
      TableFacts(AddIncomingInvite(s, t, setup));
      NewQuiet(s, t, setup);
      AnswerInviteQuiet(AddIncomingInvite(s, t, setup), t, a);
    }
  }

  lemma RegisteredQuiet(s: State, t: Txn, found: Option<SipDialog>)
    requires t in s.irqs && (found.Some? ==> found.value in s.dlgs) && Quiet(s.dlgs)
    ensures Quiet(AnswerRegistered(s, t, found).dlgs)
  {
  }

  lemma NewQuiet(s: State, t: Txn, setup: Setup)
    requires setup.NewDialogFor? && SetupOk(s, t, setup) && Quiet(s.dlgs)
    ensures Quiet(AddIncomingInvite(s, t, setup).dlgs)
  {
  }

  // ---------- requests inside a dialog ----------

  lemma AckQuiet(s: State, leg: Leg, irq: Irq)
    requires Tracked(s) && Quiet(s.dlgs)
    ensures Quiet(AckRequest(s, leg, irq).dlgs)
  {
    hide IipClear, Quiet, ClearSipTimers;
    var s0 := Arrive(s, irq);
    var t := IipByLeg(s0.iips, leg);
    if t.Some? {
      IipClearQuiet(s0, t.value);
      ClearSipTimersQuiet(IipClear(s0, t.value), s0.iips[t.value].dlg);
    } else if StableByLeg(s0, leg).Some? {
      ClearSipTimersQuiet(s0, StableByLeg(s0, leg).value);
    }
  }

  lemma TearDownQuiet(s: State, d: SipDialog, leg: Leg)
    requires Tracked(s) && d in s.dlgs && Quiet(s.dlgs)
    ensures Quiet(TearDown(s, d, leg).dlgs)
  {
    hide IipClearLeg, Quiet, ClearSipTimers, SdClearLeg;
    ClearSipTimersQuiet(s, d);
    IipClearLegQuiet(SdClearLeg(ClearSipTimers(s, d), leg), leg);
  }

  lemma CancelQuiet(s: State, leg: Leg, irq: Irq, forked: bool)
    requires Tracked(s) && Quiet(s.dlgs)
    ensures Quiet(CancelRequest(s, leg, irq, forked).dlgs)
  {
    hide TearDown, Quiet;
    var d := DialogByLeg(Arrive(s, irq), leg);
    if d.Some? {
      TearDownQuiet(Arrive(s, irq), d.value, leg);
    }
  }

  lemma EndDialogQuiet(s: State, d: SipDialog, leg: Leg, t: Txn, routed: bool)
    requires Tracked(s) && d in s.dlgs && Quiet(s.dlgs)
    ensures Quiet(EndDialog(s, d, leg, t, routed).dlgs)
  {
    hide IipClear, ClearSipTimers, SdClearLeg, Quiet;
    ClearSipTimersQuiet(s, d);
    var s1 := SdClearLeg(ClearSipTimers(s, d), leg);
    var s2 := if routed then s1 else TakeIrq(s1, t);
    if s.dlgs[d].txn in s2.iips {
      IipClearQuiet(s2, s.dlgs[d].txn);
    }
  }

  lemma RecordQuiet(s: State, d: SipDialog)
    requires d in s.dlgs && Quiet(s.dlgs)
    ensures var r := s.dlgs[d];
      (r.durationG == 0 || (r.uas && r.status >= 200)) && (r.timerG.Some? ==> r.durationG > 0)
  {
  }

  lemma RecordsQuiet(s: State, d: SipDialog, t: Txn, irq: Irq)
    requires Tracked(s) && d in s.dlgs && Quiet(s.dlgs)
    ensures Tracked(AddPending(s, d, t)) && Quiet(AddPending(s, d, t).dlgs)
    ensures Quiet(RegisterIrq(HoldUpdate(AddPending(s, d, t), d, t, irq), t, irq, Of(d)).dlgs)
    ensures Quiet(Destroy(DropPending(AddPending(s, d, t), d, t), irq).dlgs)
  {
    hide Quiet;
    RecordQuiet(s, d);
    var r := s.dlgs[d].(pending := s.dlgs[d].pending + {t});
    PutQuiet(s, d, r);
    var s1 := AddPending(s, d, t);
    PutQuiet(s1, d, r.(pending := r.pending - {t}));
    PutQuiet(s1, d, r.(updateIrq := Some(irq), updateTxn := t));
  }

  lemma RequestForQuiet(s: State, d: SipDialog, leg: Leg, irq: Irq, t: Txn, m: Method, r: Routing)
    requires Tracked(s) && d in s.dlgs && Quiet(s.dlgs)
    ensures Quiet(RequestFor(s, d, leg, irq, t, m, r).dlgs)
  {
    hide Register, Quiet, AddPending, DropPending, HoldUpdate, RegisterIrq, Tracked;
    RecordsQuiet(s, d, t, irq);
    RegisterQuiet(if m.Bye_? then s else AddPending(s, d, t), d, leg, irq, t, m, r);
  }

  lemma RegisterQuiet(s: State, d: SipDialog, leg: Leg, irq: Irq, t: Txn, m: Method, r: Routing)
    requires Tracked(s) && d in s.dlgs && Quiet(s.dlgs)
    ensures Quiet(Register(s, d, leg, irq, t, m, r).dlgs)
  {
    hide EndDialog, Quiet;
    EndDialogQuiet(RegisterIrq(s, t, irq, if m.Bye_? then Bye else Of(d)), d, leg, t, r.routed);
  }

  lemma RequestQuiet(s: State, leg: Leg, irq: Irq, t: Txn, m: Method, r: Routing)
    requires Tracked(s) && Quiet(s.dlgs)
    ensures Quiet(OtherRequest(s, leg, irq, t, m, r).dlgs)
  {
    hide RequestFor, DialogByLeg, Quiet;
    var d := DialogByLeg(Arrive(s, irq), leg);
    if d.Some? {
      RequestForQuiet(Arrive(s, irq), d.value, leg, irq, t, m, r);
    }
  }

  lemma FromLegQuiet(s: State, leg: Leg, irq: Irq, q: InDialog, valid: bool, untagged: bool)
    requires Tracked(s) && Quiet(s.dlgs)
    ensures Quiet(FromLeg(s, leg, irq, q, valid, untagged).dlgs)
  {
    hide AckRequest, CancelRequest, OtherRequest, DialogByLeg, OutOfOrder, Tracked, Quiet;
    match q
    case AnAck => AckQuiet(s, leg, irq);
    case ACancel(forked) => CancelQuiet(s, leg, irq, forked);
    case Another(t, m, r) => RequestQuiet(s, leg, irq, t, m, r);
  }

  // ---------- callbacks, timers, the application's own requests ----------

  lemma CallbackQuiet(s: State, irq: Irq, e: IrqEvent)
    requires Tracked(s) && Quiet(s.dlgs)
    ensures Quiet(IrqCallback(s, irq, e).dlgs)
  {
    hide IipClear, ClearSipTimers, Quiet;
    var t := IipByIrq(s.iips, irq);
    if t.Some? {
      var d := s.iips[t.value].dlg;
      IipClearQuiet(s, t.value);
      ClearSipTimersQuiet(s, d);
      IipClearQuiet(ClearSipTimers(s, d), t.value);
      ClearSipTimersQuiet(IipClear(s, t.value), d);
    }
  }

  lemma TimerGQuiet(s: State, h: Timer, lost: bool)
    requires h in s.queueG && s.queueG[h] in s.dlgs && Quiet(s.dlgs)
    requires s.dlgs[s.queueG[h]].uas && s.dlgs[s.queueG[h]].status >= 200
    ensures Quiet(TimerGFires(s, h, lost).dlgs)
  {
    var s0 := s.(queueG := s.queueG - {h});
    StopQuiet(s0, s.queueG[h]);
    RetransmitQuiet(s0, s.queueG[h], lost);
    hide StopRetransmitting, Retransmit, Quiet;
  }

  lemma StopQuiet(s: State, d: SipDialog)
    requires d in s.dlgs && Quiet(s.dlgs)
    ensures Quiet(StopRetransmitting(s, d).dlgs)
  {
  }

  lemma RetransmitQuiet(s: State, d: SipDialog, lost: bool)
    requires d in s.dlgs && Quiet(s.dlgs) && s.dlgs[d].uas && s.dlgs[d].status >= 200
    ensures Quiet(Retransmit(s, d, lost).dlgs)
  {
  }

  lemma TimerHQuiet(s: State, h: Timer)
    requires Inv(s) && Tracked(s) && h in s.queueH && s.queueH[h] in s.dlgs && Quiet(s.dlgs)
    ensures Quiet(TimerHFires(s, h).dlgs)
  {
    hide Inv, TearDown, TimerHFires, Quiet;
    TimerHTearsDown(s, h);
    TearDownQuiet(s, s.queueH[h], s.dlgs[s.queueH[h]].leg);
  }

  lemma SendInsideQuiet(s: State, id: DialogId, m: Sent, fails: bool)
    requires Tracked(s) && Quiet(s.dlgs)
    ensures Quiet(SendInside(s, id, m, fails).dlgs)
  {
    hide IipClearLeg, Quiet;
    var od := StableById(s, id);
    if od.Some? {
      IipClearLegQuiet(s, s.dlgs[od.value].leg);
    }
  }

  lemma ResponseQuiet(s: State, t: Txn, status: nat, subscribe: bool, reliable: bool)
    requires Tracked(s) && t in s.iips && Quiet(s.dlgs) && !s.dlgs[s.iips[t].dlg].uas
    ensures Quiet(ResponseOutside(s, t, status, subscribe, reliable).dlgs)
  {
    var d := s.iips[t].dlg;
    var s1 := SetDlg(s, d, s.dlgs[d].(status := status));
    PutQuiet(s, d, s.dlgs[d].(status := status));
    hide IipClear, SdInsert, Quiet;
    IipClearQuiet(s1, t);
    IipClearQuiet(SdInsert(s1, d), t);
  }

  lemma ReapQuiet(s: State, d: SipDialog, txns: seq<Txn>)
    requires Unreferenced(s, d) && Quiet(s.dlgs)
    ensures Quiet(Reap(s, d, txns).dlgs)
  {
    ClearDanglingFrame(s, txns, s.dlgs);
  }

  lemma SendInviteQuiet(s: State, d: SipDialog, rec: Dialog, orq: Orq)
    requires Quiet(s.dlgs) && rec.durationG == 0 && rec.timerG.None?
    ensures Quiet(SendInvite(s, d, rec, orq).dlgs)
  {
  }

  // ---------- runs ----------

  lemma StepQuiet(s: State, e: Event)
    requires Inv(s) && Enabled(s, e) && Quiet(s.dlgs)
    ensures Quiet(Step(s, e).dlgs)
  {
    hide Inv, Quiet;
    hide Respond, AckRequest, CancelRequest, OtherRequest, FromLeg, IrqCallback, TimerGFires, TimerHFires, SendInside;
    hide ResponseOutside, Reap, IipClear, SendInvite, FreshTxn, SetupOk, AnswerOk, ToldToApp, Unreferenced, Lists;
    TableFacts(s);
    match e
    case AppAnswers(t, a, setup, found) => RespondQuiet(s, t, a, setup, found);
    case AckArrives(leg, i) => AckQuiet(s, leg, i);
    case CancelArrives(leg, i, forked) => CancelQuiet(s, leg, i, forked);
    case RequestArrives(leg, i, t, m, routing) => RequestQuiet(s, leg, i, t, m, routing);
    case LegRequest(leg, i, q, valid, untagged) => FromLegQuiet(s, leg, i, q, valid, untagged);
    case IrqEventArrives(i, ev) => CallbackQuiet(s, i, ev);
    case PrackArrives(_, _, _) =>
    case TimerG(h, lost) =>
      TimerGFacts(s, h);
      DialogFacts(s, s.queueG[h]);
      TimerGQuiet(s, h, lost);
    case TimerH(h) => TimerHQuiet(s, h);
    case ByeTimeout(_) =>
    case AppInvites(d, rec, orq) => SendInviteQuiet(s, d, rec, orq);
    case AppSends(id, m, fails) => SendInsideQuiet(s, id, m, fails);
    case ResponseArrives(t, status, subscribe, reliable) => ResponseQuiet(s, t, status, subscribe, reliable);
    case DialogOver(_) =>
    case StaleDialog(_) =>
    case CancelTimeout(t) => IipClearQuiet(s, t);
    case DestructorRuns(d, txns) => ReapQuiet(s, d, txns);
  }

  lemma InitQuiet()
    ensures Quiet(Init.dlgs)
  {
  }

  lemma {:induction false} EveryRunQuiet(ss: seq<State>, es: seq<Event>, i: nat)
    requires IsRun(ss, es) && i < |ss|
    ensures Quiet(ss[i].dlgs)
  {
    hide Step, Inv, Quiet;
    if i > 0 {
      EveryRunQuiet(ss, es, i - 1);
      EveryRunSafe(ss, es, i - 1);
      StepQuiet(ss[i - 1], es[i - 1]);
    } else {
      InitQuiet();
    }
  }

  /** Which timers an answer starts, on every run: a 200 OK to an INVITE that has had no final response and
      whose dialog is not stable starts timer G, with the interval T1 (500 ms), exactly over a datagram
      transport, and timer H always; no other answer starts or stops any. */
  lemma AnswersStartTimers(ss: seq<State>, es: seq<Event>, i: nat)
    requires IsRun(ss, es) && i < |es| && es[i].AppAnswers?
    ensures var s, r, e := ss[i], ss[i + 1], es[i];
      if Accepts(s, e.t, e.a, e.setup) then AnswerStarts(s, r, e.t, Answering(s, e.t, e.setup), e.a)
      else SameTimers(s, r)
  {
    hide Step, Inv, Quiet, AnswerStarts, SameTimers, Accepts, Answering;
    EveryRunQuiet(ss, es, i);
    EveryRunSafe(ss, es, i);
    var e := es[i];
    if Accepts(ss[i], e.t, e.a, e.setup) {
      AcceptStarts(ss[i], e.t, e.a, e.setup, e.found);
    } else {
      OthersStartNone(ss[i], e.t, e.a, e.setup, e.found);
    }
  }

  /** The same for timer G: on every run it is set again, for twice the interval and 4000 ms at most, exactly
      while its dialog has the INVITE irq. */
  lemma TimerGGoesOn(ss: seq<State>, es: seq<Event>, i: nat)
    requires IsRun(ss, es) && i < |es| && es[i].TimerG?
    ensures var s, r, h := ss[i], ss[i + 1], es[i].h; var d := s.queueG[h];
      && d in r.dlgs && (s.dlgs[d].inviteIrq.Some? <==> r.dlgs[d].timerG.Some?)
      && (s.dlgs[d].inviteIrq.Some? ==>
            && Started(s.queueG - {h}, r.queueG, r.dlgs[d].timerG, d, es[i].lost)
            && r.dlgs[d].durationG == if s.dlgs[d].durationG > 2000 then 4000 else 2 * s.dlgs[d].durationG)
  {
    hide Step, Inv, Quiet;
    EveryRunQuiet(ss, es, i);
    EveryRunSafe(ss, es, i);
    TimerGFiring(ss[i], es[i].h, es[i].lost);
  }
}
