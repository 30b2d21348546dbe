/** What each event handler of the dialog controller does to its tables, and the invariant they
    all rest on (src/sip-dialog-controller.cpp). */
module DialogHandlers {
  import opened Wrappers
  import opened SipDialogs
  import opened DialogSpec

  // ---------- the invariant ----------

  type Dlgs = map<SipDialog, Dialog>

  /** Leg, dialog and transaction id are one-to-one, and both tables agree with the dialog objects. */
  ghost predicate Linked(iips: Iips, stable: set<SipDialog>, dlgs: Dlgs) {
    && (forall t :: t in iips ==>
          && iips[t].dlg in dlgs
          && dlgs[iips[t].dlg].leg == iips[t].leg
          && dlgs[iips[t].dlg].txn == t
          && (iips[t].irq.Some? ==> dlgs[iips[t].dlg].uas)
          && (iips[t].irq.None? && dlgs[iips[t].dlg].uas ==> dlgs[iips[t].dlg].status >= 200))
    && (forall d :: d in stable ==> d in dlgs && (dlgs[d].uas ==> dlgs[d].status >= 200))
    && (forall d, e :: d in dlgs && e in dlgs && d != e ==>
          dlgs[d].leg != dlgs[e].leg && dlgs[d].txn != dlgs[e].txn)
    && (forall d, e :: d in stable && e in stable && d != e ==> dlgs[d].dialogId != dlgs[e].dialogId)
  }

  /** A dialog's inviteIrq is null or the irq of an invite in progress still in the table for it. */
  ghost predicate InviteIrqs(iips: Iips, dlgs: Dlgs) {
    forall d :: d in dlgs && dlgs[d].inviteIrq.Some? ==>
      dlgs[d].txn in iips && iips[dlgs[d].txn].dlg == d && iips[dlgs[d].txn].irq == dlgs[d].inviteIrq
  }

  /** Handles given out so far; those of the lost entries are not queued. */
  ghost predicate Handles(queue: map<Timer, SipDialog>, lost: set<Timer>, next: Timer) {
    && (forall h :: h in queue ==> h < next && h !in lost)
    && (forall h :: h in lost ==> h < next)
  }

  /** A queued timer G entry is its dialog's own, and a handle that is set names the queued entry
      unless that entry was lost. */
  ghost predicate TimersG(queue: map<Timer, SipDialog>, lost: set<Timer>, next: Timer, dlgs: Dlgs) {
    && Handles(queue, lost, next)
    && (forall h :: h in queue ==> queue[h] in dlgs && dlgs[queue[h]].timerG == Some(h))
    && (forall d :: d in dlgs && dlgs[d].timerG.Some? ==>
          && (dlgs[d].timerG.value in lost
              || (dlgs[d].timerG.value in queue && queue[dlgs[d].timerG.value] == d))
          && dlgs[d].uas && dlgs[d].status >= 200)
  }

  ghost predicate TimersH(queue: map<Timer, SipDialog>, lost: set<Timer>, next: Timer, dlgs: Dlgs) {
    && Handles(queue, lost, next)
    && (forall h :: h in queue ==> queue[h] in dlgs && dlgs[queue[h]].timerH == Some(h))
    && (forall d :: d in dlgs && dlgs[d].timerH.Some? ==>
          && (dlgs[d].timerH.value in lost
              || (dlgs[d].timerH.value in queue && queue[dlgs[d].timerH.value] == d))
          && dlgs[d].uas && dlgs[d].status >= 200)
  }

  /** An irq is destroyed once and then only by answers that find it again, and whatever a table
      still holds has not been destroyed. */
  ghost predicate Irqs(iips: Iips, irqs: map<Txn, Irq>, seen: set<Irq>, destroyed: multiset<Irq>,
                       again: multiset<Irq>) {
    && (forall i :: i in destroyed ==> i in seen && destroyed[i] == 1 + again[i])
    && (forall i :: i in again ==> i in destroyed)
    && (forall t :: t in irqs ==> irqs[t] in seen && irqs[t] !in destroyed)
    && (forall t, u :: t in irqs && u in irqs && t != u ==> irqs[t] != irqs[u])
    && (forall t :: t in iips && iips[t].irq.Some? ==>
          iips[t].irq.value in seen && iips[t].irq.value !in destroyed)
    && (forall t, u :: t in iips && u in iips && t != u && iips[t].irq.Some? ==> iips[t].irq != iips[u].irq)
    && (forall t, u :: t in iips && u in irqs ==> iips[t].irq != Some(irqs[u]))
  }

  /** Every irq in the table is answered for: by BYE's timeout, by PRACK, or by a living dialog. */
  ghost predicate Owners(irqs: map<Txn, Irq>, owner: map<Txn, Owner>, dlgs: Dlgs) {
    && (forall t :: t in irqs ==> t in owner)
    && (forall t :: t in irqs && owner[t].Of? ==>
          owner[t].dlg in dlgs && t in dlgs[owner[t].dlg].pending)
    && (forall d, t :: d in dlgs && t in dlgs[d].pending && t in irqs ==> owner[t] == Of(d))
  }

  /** An outstanding UPDATE irq is the table's entry for the dialog's UPDATE transaction. */
  ghost predicate Updates(irqs: map<Txn, Irq>, owner: map<Txn, Owner>, dlgs: Dlgs) {
    forall d :: d in dlgs && dlgs[d].updateIrq.Some? ==>
      && dlgs[d].updateTxn in irqs && irqs[dlgs[d].updateTxn] == dlgs[d].updateIrq.value
      && dlgs[d].updateTxn in owner && owner[dlgs[d].updateTxn] == Of(d)
  }

  ghost predicate Links(s: State) { Linked(s.iips, s.stable, s.dlgs) }

  ghost predicate Inv(s: State) {
    && Linked(s.iips, s.stable, s.dlgs)
    && InviteIrqs(s.iips, s.dlgs)
    && TimersG(s.queueG, s.lost, s.nextTimer, s.dlgs)
    && TimersH(s.queueH, s.lost, s.nextTimer, s.dlgs)
    && Irqs(s.iips, s.irqs, s.seen, s.destroyed, s.again)
    && Owners(s.irqs, s.owner, s.dlgs)
    && Updates(s.irqs, s.owner, s.dlgs)
  }

  const Init: State := State(map[], {}, map[], map[], map[], 0, {}, map[], map[], {}, multiset{}, multiset{})

  /** generateUuid: a transaction id never used before. */
  ghost predicate FreshTxn(s: State, t: Txn) {
    t !in s.owner && t !in s.irqs && forall d :: d in s.dlgs ==> t !in s.dlgs[d].pending
  }

  ghost predicate FreshIrq(s: State, irq: Irq) { irq !in s.seen }

  /** A new dialog object with a new leg and a new transaction id. */
  ghost predicate FreshDialog(s: State, d: SipDialog, rec: Dialog) {
    && d !in s.dlgs
    && rec == NewDialog(rec.leg, rec.txn, rec.dialogId, rec.uas, rec.inviteDialog)
    && (forall e :: e in s.dlgs ==> s.dlgs[e].leg != rec.leg && s.dlgs[e].txn != rec.txn)
  }

  // ---------- the application answers a request ----------

  /** setupLegForIncomingRequest: no pending request, an INVITE or SUBSCRIBE, or any other method. */
  datatype Setup = Nothing | NewDialogFor(dlg: SipDialog, rec: Dialog, irq: Irq) | PlainRequest(irq: Irq)

  /** What the application sent, how sending it went, and which timers started by it were lost. */
  datatype Answer = Answer(code: nat, cseqUpdate: bool, subscribe: bool, reliable: bool,
                           transportOk: bool, datagram: bool, sendOk: bool, lostG: bool, lostH: bool)

  ghost function AddIncomingInvite(s: State, t: Txn, setup: Setup): State
    requires setup.NewDialogFor?
  {
    IipInsert(SetDlg(Arrive(s, setup.irq), setup.dlg, setup.rec), t,
              Iip(setup.rec.leg, Some(setup.irq), None, setup.dlg))
  }

  /** The 200 to an INVITE went out: dialog added, timers G and H started, irq remembered. */
  ghost function Answered(s: State, d: SipDialog, irq: Irq, a: Answer): State
    requires Tracked(s) && d in s.dlgs
  {
    var s1 := SdInsert(s, d);
    var s2 := if a.datagram then AddTimerG(s1, d, a.lostG) else s1;
    RememberInvite(AddTimerH(s2, d, a.lostH), d, irq)
  }

  /** setInviteIrq. */
  ghost function RememberInvite(s: State, d: SipDialog, irq: Irq): State
    requires d in s.dlgs
  {
    SetDlg(s, d, s.dlgs[d].(inviteIrq := Some(irq)))
  }

  /** A reply to an UPDATE that arrived while the INVITE was in progress. */
  ghost function AnswerUpdate(s: State, d: SipDialog): State
    requires d in s.dlgs && s.dlgs[d].updateIrq.Some?
  {
    var r := s.dlgs[d];
    Destroy(SetDlg(s.(irqs := s.irqs - {r.updateTxn}), d,
                   r.(updateIrq := None, updateTxn := 0, pending := r.pending - {r.updateTxn})),
            r.updateIrq.value)
  }

  /** A response goes out on an invite in progress not yet answered finally. */
  ghost function SendAnswer(s: State, t: Txn, a: Answer): State
    requires Tracked(s) && t in s.iips && s.iips[t].irq.Some?
  {
    var d := s.iips[t].dlg;
    var s1 := SetDlg(s, d, s.dlgs[d].(status := a.code));
    if 100 < a.code < 200 && !a.subscribe && a.reliable then s1
    else if !a.sendOk then s1
    else if a.subscribe then
      IipClear(if a.code == 202 || a.code == 200 then SdInsert(s1, d) else s1, t)
    else if a.code == 200 then Answered(s1, d, s.iips[t].irq.value, a)
    else s1
  }

  ghost function AnswerInvite(s: State, t: Txn, a: Answer): State
    requires Tracked(s) && t in s.iips
    requires s.iips[t].irq.Some? || s.dlgs[s.iips[t].dlg].status >= 200
          || (a.cseqUpdate && s.dlgs[s.iips[t].dlg].updateIrq.Some?)
  {
    var d := s.iips[t].dlg;
    if s.dlgs[d].updateIrq.Some? && a.cseqUpdate then AnswerUpdate(s, d)
    else if s.dlgs[d].status >= 200 then s                             // a final response went out already
    else if !a.transportOk then s
    else if StableById(s, s.dlgs[d].dialogId).Some? then s             // a forked INVITE answered elsewhere
    else SendAnswer(s, t, a)
  }

  /** The transaction id of an UPDATE in progress is never given to an application. */
  ghost predicate ToldToApp(s: State, t: Txn) {
    forall d :: d in s.dlgs && s.dlgs[d].updateIrq.Some? ==> s.dlgs[d].updateTxn != t
  }

  /** No table holds this irq. That is all that is known of the irq a plain answer goes out on: a new
      one, or the one nta_incoming_find still has for the request, which was never registered because
      the request is pending, but which may have been destroyed when the request became pending. */
  ghost predicate InNoTable(s: State, irq: Irq) {
    && (forall t :: t in s.irqs ==> s.irqs[t] != irq)
    && (forall t :: t in s.iips ==> s.iips[t].irq != Some(irq))
  }

  /** The reply to a plain request destroys its irq, whether or not that was done before. */
  ghost function AnswerPlain(s: State, irq: Irq): State {
    Destroy(Arrive(s, irq), irq).(again := if irq in s.destroyed then s.again + multiset{irq} else s.again)
  }

  ghost predicate SetupOk(s: State, t: Txn, setup: Setup) {
    match setup
    case Nothing => true
    case PlainRequest(irq) => InNoTable(s, irq)
    case NewDialogFor(d, rec, irq) =>
      FreshIrq(s, irq) && FreshDialog(s, d, rec) && rec.txn == t && rec.uas
  }

  /** An application answers only what it was sent: a UAC invite only for a pending UPDATE. */
  ghost predicate InviteAnswerOk(s: State, t: Txn, a: Answer)
    requires Tracked(s) && t in s.iips
  {
    s.dlgs[s.iips[t].dlg].uas || (a.cseqUpdate && s.dlgs[s.iips[t].dlg].updateIrq.Some?)
  }

  ghost predicate AnswerOk(s: State, t: Txn, a: Answer)
    requires Tracked(s)
  {
    t !in s.irqs && t in s.iips ==> InviteAnswerOk(s, t, a)
  }

  /** A reply to a request registered in the irq table. */
  ghost function AnswerRegistered(s: State, t: Txn, found: Option<SipDialog>): State
    requires t in s.irqs && (found.Some? ==> found.value in s.dlgs)
  {
    var s1 := s.(irqs := s.irqs - {t});
    Destroy(if found.Some? then DropPending(s1, found.value, t) else s1, s.irqs[t])
  }

  /** The pending request an answer refers to, before a dialog object exists for it. */
  datatype Incoming =
    | NoRequest
    | InviteOrSubscribe(irq: Irq, leg: Leg, dialogId: DialogId, inviteDialog: bool)
    | Plain(irq: Irq)

  ghost predicate IncomingOk(s: State, t: Txn, incoming: Incoming) {
    match incoming
    case NoRequest => true
    case Plain(irq) => InNoTable(s, irq)
    case InviteOrSubscribe(irq, leg, _, _) =>
      FreshIrq(s, irq) &&
      (t !in s.iips && t !in s.irqs ==> forall e :: e in s.dlgs ==> s.dlgs[e].leg != leg && s.dlgs[e].txn != t)
  }

  ghost predicate Opens(setup: Setup, incoming: Incoming, t: Txn) {
    match incoming
    case NoRequest => setup == Nothing
    case Plain(irq) => setup == PlainRequest(irq)
    case InviteOrSubscribe(irq, leg, dialogId, inviteDialog) =>
      setup.NewDialogFor? && setup.irq == irq && setup.rec == NewDialog(leg, t, dialogId, true, inviteDialog)
  }

  /** doRespondToSipRequest. `found` is the dialog the leg lookup by Call-ID gives, if any. */
  ghost function Respond(s: State, t: Txn, a: Answer, setup: Setup, found: Option<SipDialog>): State
    requires Links(s) && SetupOk(s, t, setup) && AnswerOk(s, t, a)
    requires found.Some? ==> found.value in s.dlgs
  {
    if t in s.irqs then AnswerRegistered(s, t, found)
    else if t in s.iips then AnswerInvite(s, t, a)
    else match setup
      case Nothing => s
      case PlainRequest(irq) => AnswerPlain(s, irq)
      case NewDialogFor(_, _, _) => AnswerInvite(AddIncomingInvite(s, t, setup), t, a)
  }

  // ---------- requests inside a dialog ----------

  /** The tables after an ACK on this leg: the invite cleared if there is one, the timers stopped. */
  ghost function Acked(s: State, leg: Leg): State
    requires Tracked(s)
  {
    var t := IipByLeg(s.iips, leg);
    if t.Some? then ClearSipTimers(IipClear(s, t.value), s.iips[t.value].dlg)
    else
      var d := StableByLeg(s, leg);
      if d.Some? then ClearSipTimers(s, d.value) else s
  }

  /** ACK to a 2xx; its own irq is destroyed on every path. */
  ghost function AckRequest(s: State, leg: Leg, irq: Irq): State
    requires Tracked(s)
  {
    Destroy(Acked(Arrive(s, irq), leg), irq)
  }

  ghost function TearDown(s: State, d: SipDialog, leg: Leg): (r: State)
    requires Tracked(s) && d in s.dlgs
    ensures Tracked(r)
  {
    IipClearLeg(SdClearLeg(ClearSipTimers(s, d), leg), leg)
  }

  /** CANCEL; `forked` when it belongs to an INVITE still pending at the application. */
  ghost function CancelRequest(s: State, leg: Leg, irq: Irq, forked: bool): State
    requires Tracked(s)
  {
    var s0 := Arrive(s, irq);
    var d := DialogByLeg(s0, leg);
    if forked || d.None? then s0
    else TearDown(s0, d.value, leg)
  }

  datatype Method = Bye_ | Invite_ | Update_ | NotifyTerminated_ | OutOfDialogCapable_ | Other_

  /** How the rest of the server treats one in-dialog request. */
  datatype Routing = Routing(tooSmall: bool, routed: bool, routedInsideInvite: bool)

  /** BYE, or the NOTIFY that ends a subscription. */
  ghost function EndDialog(s: State, d: SipDialog, leg: Leg, t: Txn, routed: bool): State
    requires Tracked(s) && d in s.dlgs
  {
    var s1 := SdClearLeg(ClearSipTimers(s, d), leg);
    var s2 := if routed then s1 else TakeIrq(s1, t);
    if s.dlgs[d].txn in s2.iips then IipClear(s2, s.dlgs[d].txn) else s2
  }

  ghost function HoldUpdate(s: State, d: SipDialog, t: Txn, irq: Irq): State
    requires d in s.dlgs
  {
    SetDlg(s, d, s.dlgs[d].(updateIrq := Some(irq), updateTxn := t))
  }

  ghost function Register(s: State, d: SipDialog, leg: Leg, irq: Irq, t: Txn, m: Method, r: Routing): State
    requires Tracked(s) && d in s.dlgs
  {
    var s1 := RegisterIrq(s, t, irq, if m.Bye_? then Bye else Of(d));
    if m.Bye_? || (m.NotifyTerminated_? && !s.dlgs[d].inviteDialog)
    then EndDialog(s1, d, leg, t, r.routed) else s1
  }

  /** Any other request: the default branch of processRequestInsideDialog. */
  ghost function RequestFor(s: State, d: SipDialog, leg: Leg, irq: Irq, t: Txn, m: Method, r: Routing): State
    requires Tracked(s) && d in s.dlgs
  {
    var s1 := if m.Bye_? then s else AddPending(s, d, t);
    if (m.Invite_? || m.Update_?) && r.tooSmall then s1
    else if !r.routed && s.dlgs[d].status < 200 && (m.OutOfDialogCapable_? || m.NotifyTerminated_?) then
      Destroy(DropPending(s1, d, t), irq)
    else if !r.routed && s.dlgs[d].status < 200 && m.Update_? then
      if s.dlgs[d].updateIrq.Some? then s1
      else RegisterIrq(HoldUpdate(s1, d, t, irq), t, irq, Of(d))
    else if !r.routed && s.dlgs[d].status >= 200 && !m.Bye_? then Destroy(s1, irq)
    else Register(s1, d, leg, irq, t, m, r)
  }

  ghost function OtherRequest(s: State, leg: Leg, irq: Irq, t: Txn, m: Method, r: Routing): State
    requires Tracked(s)
  {
    var s0 := Arrive(s, irq);
    var d := DialogByLeg(s0, leg);
    if d.None? then s0 else RequestFor(s0, d.value, leg, irq, t, m, r)
  }

  // ---------- the way in, for the legs of dialogs that began with a request to us ----------

  datatype InDialog = AnAck | ACancel(forked: bool) | Another(t: Txn, method_: Method, routing: Routing)

  ghost function Inside(s: State, leg: Leg, irq: Irq, q: InDialog): State
    requires Tracked(s)
  {
    match q
    case AnAck => AckRequest(s, leg, irq)
    case ACancel(forked) => CancelRequest(s, leg, irq, forked)
    case Another(t, m, r) => OtherRequest(s, leg, irq, t, m, r)
  }

  /** A request that has to wait for an ACK: an INVITE without a tag in a dialog that has been answered. */
  ghost predicate OutOfOrder(s: State, leg: Leg, q: InDialog, untagged: bool)
    requires Tracked(s)
  {
    && q.Another? && q.method_.Invite_? && untagged
    && DialogByLeg(s, leg).Some? && s.dlgs[DialogByLeg(s, leg).value].status >= 200
  }

  /** processRequestInsideDialog of the controller above: a request that is not valid or out of order is
      answered by the stack, one that finds no dialog has its irq destroyed. */
  ghost function FromLeg(s: State, leg: Leg, irq: Irq, q: InDialog, valid: bool, untagged: bool): State
    requires Tracked(s)
  {
    var s0 := Arrive(s, irq);
    if !valid || OutOfOrder(s, leg, q, untagged) then s0
    else if DialogByLeg(s, leg).None? then Destroy(s0, irq)
    else Inside(s, leg, irq, q)
  }

  // ---------- callbacks on the INVITE irq, PRACK, timers ----------

  datatype IrqEvent = NoSip | Cancel | Ack | Discarded

  /** processCancelOrAck. */
  ghost function IrqCallback(s: State, irq: Irq, e: IrqEvent): State
    requires Tracked(s)
  {
    var t := IipByIrq(s.iips, irq);
    if t.None? then s else
    var d := s.iips[t.value].dlg;
    match e
    case NoSip => IipClear(ClearSipTimers(s, d), t.value)
    case Cancel => IipClear(s, t.value)
    case Ack => ClearSipTimers(IipClear(s, t.value), d)
    case Discarded => s
  }

  /** processPrack, when the reliable response belongs to an invite in progress. */
  ghost function PrackRequest(s: State, irq: Irq, t: Txn, found: bool): State {
    var s0 := Arrive(s, irq);
    if found then RegisterIrq(s0, t, irq, Prack) else s0
  }

  ghost function StopRetransmitting(s: State, d: SipDialog): State
    requires d in s.dlgs
  {
    ForgetInvite(StopH(SetDlg(s, d, s.dlgs[d].(timerG := None)), d), d)
  }

  ghost function Retransmit(s: State, d: SipDialog, lost: bool): State
    requires d in s.dlgs
  {
    AddTimerG(SetDlg(s, d, s.dlgs[d].(durationG := Bumped(s.dlgs[d].durationG))), d, lost)
  }

  /** retransmitFinalResponse: the entry is off the queue before the callback runs. */
  ghost function TimerGFires(s: State, h: Timer, lost: bool): State
    requires h in s.queueG && s.queueG[h] in s.dlgs
  {
    var d := s.queueG[h];
    var s0 := s.(queueG := s.queueG - {h});
    if s.dlgs[d].inviteIrq.None? then StopRetransmitting(s0, d) else Retransmit(s0, d, lost)
  }

  /** What timer G puts on the wire: the irq it retransmits the 200 on. */
  ghost function Retransmits(s: State, h: Timer): Option<Irq>
    requires h in s.queueG && s.queueG[h] in s.dlgs
  {
    s.dlgs[s.queueG[h]].inviteIrq
  }

  ghost function AfterTimerH(s: State, h: Timer): (r: State)
    requires h in s.queueH && s.queueH[h] in s.dlgs
    ensures r.iips == s.iips && r.stable == s.stable && r.dlgs.Keys == s.dlgs.Keys
  {
    var d := s.queueH[h];
    var s1 := StopG(s.(queueH := s.queueH - {h}), d);
    ForgetInvite(SetDlg(s1, d, s1.dlgs[d].(timerH := None)), d)
  }

  /** endRetransmitFinalResponse: no ACK ever came. */
  ghost function TimerHFires(s: State, h: Timer): State
    requires Tracked(s) && h in s.queueH && s.queueH[h] in s.dlgs
  {
    var leg := s.dlgs[s.queueH[h]].leg;
    SdClearLeg(IipClearLeg(AfterTimerH(s, h), leg), leg)
  }

  // ---------- requests the application sends, and their responses ----------

  /** doSendRequestOutsideDialog for INVITE or SUBSCRIBE. */
  ghost function SendInvite(s: State, d: SipDialog, rec: Dialog, orq: Orq): State {
    IipInsert(SetDlg(s, d, rec), rec.txn, Iip(rec.leg, None, Some(orq), d))
  }

  datatype Sent = SentBye | SentAck(ackBye: bool) | SentInvite(orq: Orq) | SentOther

  /** doSendRequestInsideDialog; `fails` when the request is refused after the BYE clean-up. */
  ghost function SendInside(s: State, id: DialogId, m: Sent, fails: bool): State
    requires Tracked(s)
  {
    var od := StableById(s, id);
    if od.None? then s else
    var d := od.value;
    var leg := s.dlgs[d].leg;
    match m
    case SentBye =>
      var t := IipByLeg(s.iips, leg);
      if t.Some? && s.iips[t.value].orq.Some? then IipClearLeg(s, leg) else s
    case SentAck(ackBye) =>
      if fails then s
      else if s.dlgs[d].status == 200 then
        var s1 := IipClearLeg(s, leg);
        if ackBye then SdClearPtr(s1, d) else s1
      else SdClearId(s, s.dlgs[d].dialogId)
    case SentInvite(orq) => if fails then s else IipInsert(s, s.dlgs[d].txn, Iip(leg, None, Some(orq), d))
    case SentOther => s
  }

  /** processResponseOutsideDialog for an INVITE or SUBSCRIBE of ours. */
  ghost function ResponseOutside(s: State, t: Txn, status: nat, subscribe: bool, reliable: bool): State
    requires Tracked(s) && t in s.iips
  {
    var d := s.iips[t].dlg;
    var s1 := SetDlg(s, d, s.dlgs[d].(status := status));
    var s2 := if (!subscribe && (status == 200 || (100 < status < 200 && reliable))) ||
                 (subscribe && (status == 202 || status == 200))
              then SdInsert(s1, d) else s1;
    if status > 200 then IipClear(s2, t) else s2
  }

  // ---------- the destructor ----------

  /** No table and no queued timer refers to the dialog any more. */
  ghost predicate Unreferenced(s: State, d: SipDialog) {
    && d in s.dlgs && d !in s.stable
    && (forall t :: t in s.iips ==> s.iips[t].dlg != d)
    && (forall h :: h in s.queueG ==> s.queueG[h] != d)
    && (forall h :: h in s.queueH ==> s.queueH[h] != d)
  }

  /** clearDanglingIncomingRequests. */
  ghost function ClearDangling(s: State, txns: seq<Txn>): State
    decreases |txns|
  {
    if txns == [] then s else ClearDangling(TakeIrq(s, txns[0]), txns[1..])
  }

  /** ~SipDialog: `txns` lists the transaction ids the dialog still has outstanding. */
  ghost function Reap(s: State, d: SipDialog, txns: seq<Txn>): State
    requires Unreferenced(s, d)
  {
    var s1 := ClearDangling(s, txns);
    s1.(dlgs := s1.dlgs - {d})
  }

  ghost predicate Lists(txns: seq<Txn>, pending: set<Txn>) { forall t :: t in txns <==> t in pending }
}
