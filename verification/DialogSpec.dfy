/** The state of the dialog controller as a value, and what each handler does to it
    (src/sip-dialog-controller.cpp). */
module DialogSpec {
  import opened Wrappers
  import opened SipDialogs

  /** Who answers for an entry of the transaction-id to irq table. */
  datatype Owner = Bye | Prack | Of(dlg: SipDialog)

  datatype State = State(
    iips: Iips,                       // m_invitesInProgress
    stable: set<SipDialog>,           // m_dialogs
    irqs: map<Txn, Irq>,              // m_mapTransactionId2Irq
    queueG: map<Timer, SipDialog>,    // the timer G entries queued, with the dialog each is bound to
    queueH: map<Timer, SipDialog>,
    nextTimer: Timer,
    lost: set<Timer>,                 // history: the handles of timers that were started but never queued
    dlgs: map<SipDialog, Dialog>,     // every dialog whose destructor has not run
    owner: map<Txn, Owner>,           // history: how each transaction id was registered
    seen: set<Irq>,                   // history: every irq the stack has handed over
    destroyed: multiset<Irq>,         // history: every nta_incoming_destroy
    again: multiset<Irq>)             // history: those of an irq an answer found and destroyed once more

  // ---------- table lookups ----------

  ghost function IipByLeg(iips: Iips, leg: Leg): (r: Option<Txn>)
    ensures r.Some? ==> r.value in iips && iips[r.value].leg == leg
    ensures r.None? ==> forall t :: t in iips ==> iips[t].leg != leg
  {
    if exists t :: t in iips && iips[t].leg == leg then
      var t :| t in iips && iips[t].leg == leg; Some(t)
    else None
  }

  ghost function IipByIrq(iips: Iips, irq: Irq): (r: Option<Txn>)
    ensures r.Some? ==> r.value in iips && iips[r.value].irq == Some(irq)
    ensures r.None? ==> forall t :: t in iips ==> iips[t].irq != Some(irq)
  {
    if exists t :: t in iips && iips[t].irq == Some(irq) then
      var t :| t in iips && iips[t].irq == Some(irq); Some(t)
    else None
  }

  ghost predicate Known(s: State) { forall d :: d in s.stable ==> d in s.dlgs }

  /** Whatever a table refers to is a dialog whose destructor has not run. */
  ghost predicate Tracked(s: State) { Known(s) && forall t :: t in s.iips ==> s.iips[t].dlg in s.dlgs }

  ghost function StableByLeg(s: State, leg: Leg): (r: Option<SipDialog>)
    requires Tracked(s)
    ensures r.Some? ==> r.value in s.stable && s.dlgs[r.value].leg == leg
    ensures r.None? ==> forall d :: d in s.stable ==> s.dlgs[d].leg != leg
  {
    if exists d :: d in s.stable && s.dlgs[d].leg == leg then
      var d :| d in s.stable && s.dlgs[d].leg == leg; Some(d)
    else None
  }

  ghost function StableById(s: State, id: DialogId): (r: Option<SipDialog>)
    requires Tracked(s)
    ensures r.Some? ==> r.value in s.stable && s.dlgs[r.value].dialogId == id
    ensures r.None? ==> forall d :: d in s.stable ==> s.dlgs[d].dialogId != id
  {
    if exists d :: d in s.stable && s.dlgs[d].dialogId == id then
      var d :| d in s.stable && s.dlgs[d].dialogId == id; Some(d)
    else None
  }

  /** findDialogByLeg: the invites in progress first, then the stable dialogs. */
  ghost function DialogByLeg(s: State, leg: Leg): (r: Option<SipDialog>)
    requires Tracked(s)
    ensures r.Some? ==> r.value in s.dlgs
  {
    var t := IipByLeg(s.iips, leg);
    if t.Some? then Some(s.iips[t.value].dlg) else StableByLeg(s, leg)
  }

  // ---------- primitives ----------

  ghost function SetDlg(s: State, d: SipDialog, rec: Dialog): State { s.(dlgs := s.dlgs[d := rec]) }

  ghost function Destroy(s: State, irq: Irq): State { s.(destroyed := s.destroyed + multiset{irq}) }

  ghost function Arrive(s: State, irq: Irq): State { s.(seen := s.seen + {irq}) }

  /** IIP_Insert: refused when the transaction id is already a key. */
  ghost function IipInsert(s: State, t: Txn, iip: Iip): State {
    if t in s.iips then s else s.(iips := s.iips[t := iip])
  }

  ghost function ForgetInvite(s: State, d: SipDialog): (r: State)
    requires d in s.dlgs
    ensures r.dlgs.Keys == s.dlgs.Keys && r.iips == s.iips && r.stable == s.stable
  {
    SetDlg(s, d, s.dlgs[d].(inviteIrq := None))
  }

  function WithoutLeg(iips: Iips, leg: Leg): Iips {
    map u | u in iips && iips[u].leg != leg :: iips[u]
  }

  ghost function DropInvite(s: State, iip: Iip): State
    requires iip.dlg in s.dlgs
  {
    if iip.irq.Some? then Destroy(ForgetInvite(s, iip.dlg), iip.irq.value) else s
  }

  /** IIP_Clear: forget the INVITE irq in the dialog and destroy it, then erase by leg. */
  ghost function IipClear(s: State, t: Txn): (r: State)
    requires Tracked(s) && t in s.iips
    ensures Tracked(r) && r.dlgs.Keys == s.dlgs.Keys
  {
    var iip := s.iips[t];
    DropInvite(s, iip).(iips := WithoutLeg(s.iips, iip.leg))
  }

  ghost function IipClearLeg(s: State, leg: Leg): (r: State)
    requires Tracked(s)
    ensures Tracked(r) && r.dlgs.Keys == s.dlgs.Keys
  {
    var t := IipByLeg(s.iips, leg);
    if t.Some? then IipClear(s, t.value) else s
  }

  /** SD_Insert: refused when the dialog, its leg or its dialog id is already a key. */
  ghost function SdInsert(s: State, d: SipDialog): (r: State)
    requires Tracked(s) && d in s.dlgs
    ensures Tracked(r) && r.dlgs == s.dlgs
  {
    if exists e :: e in s.stable && (s.dlgs[e].leg == s.dlgs[d].leg || s.dlgs[e].dialogId == s.dlgs[d].dialogId)
    then s else s.(stable := s.stable + {d})
  }

  ghost function SdClearLeg(s: State, leg: Leg): (r: State)
    requires Tracked(s)
    ensures Tracked(r) && r == s.(stable := r.stable)
  {
    s.(stable := set d | d in s.stable && s.dlgs[d].leg != leg)
  }

  ghost function SdClearId(s: State, id: DialogId): (r: State)
    requires Tracked(s)
    ensures Tracked(r) && r == s.(stable := r.stable)
  {
    s.(stable := set d | d in s.stable && s.dlgs[d].dialogId != id)
  }

  ghost function SdClearPtr(s: State, d: SipDialog): State { s.(stable := s.stable - {d}) }

  /** TimerQueue::add hands out a handle even when it drops the entry, which it does when the deadline
      equals the last one queued (TimerSpec.ScanFallsOff); `lost` says that it did. */
  ghost function Enqueue(queue: map<Timer, SipDialog>, h: Timer, d: SipDialog, lost: bool): map<Timer, SipDialog> {
    if lost then queue else queue[h := d]
  }

  ghost function Lose(handles: set<Timer>, h: Timer, lost: bool): set<Timer> {
    if lost then handles + {h} else handles
  }

  /** m_pTQM->addTimer for timer G together with setTimerG. */
  ghost function AddTimerG(s: State, d: SipDialog, lost: bool): (r: State)
    requires d in s.dlgs
    ensures r.dlgs.Keys == s.dlgs.Keys && r.iips == s.iips && r.stable == s.stable
  {
    var r := s.dlgs[d];
    var h := s.nextTimer;
    SetDlg(s.(queueG := Enqueue(s.queueG, h, d, lost), lost := Lose(s.lost, h, lost), nextTimer := h + 1), d,
           r.(timerG := Some(h), durationG := if r.durationG == 0 then NTA_SIP_T1 else r.durationG))
  }

  ghost function AddTimerH(s: State, d: SipDialog, lost: bool): (r: State)
    requires d in s.dlgs
    ensures r.dlgs.Keys == s.dlgs.Keys && r.iips == s.iips && r.stable == s.stable
  {
    var h := s.nextTimer;
    SetDlg(s.(queueH := Enqueue(s.queueH, h, d, lost), lost := Lose(s.lost, h, lost), nextTimer := h + 1), d,
           s.dlgs[d].(timerH := Some(h)))
  }

  ghost function Unqueue(queue: map<Timer, SipDialog>, handle: Option<Timer>): map<Timer, SipDialog> {
    if handle.Some? then queue - {handle.value} else queue
  }

  /** Remove the timer from its queue if the handle is set, and null the handle. */
  ghost function StopG(s: State, d: SipDialog): (r: State)
    requires d in s.dlgs
    ensures r.dlgs.Keys == s.dlgs.Keys && r.iips == s.iips && r.stable == s.stable
  {
    SetDlg(s.(queueG := Unqueue(s.queueG, s.dlgs[d].timerG)), d, s.dlgs[d].(timerG := None))
  }

  ghost function StopH(s: State, d: SipDialog): (r: State)
    requires d in s.dlgs
    ensures r.dlgs.Keys == s.dlgs.Keys && r.iips == s.iips && r.stable == s.stable
  {
    SetDlg(s.(queueH := Unqueue(s.queueH, s.dlgs[d].timerH)), d, s.dlgs[d].(timerH := None))
  }

  /** clearSipTimers: both timers stopped and the INVITE irq forgotten. */
  ghost function ClearSipTimers(s: State, d: SipDialog): (r: State)
    requires d in s.dlgs
    ensures r.dlgs.Keys == s.dlgs.Keys && r == s.(queueG := r.queueG, queueH := r.queueH, dlgs := r.dlgs)
  {
    SetDlg(s.(queueG := Unqueue(s.queueG, s.dlgs[d].timerG), queueH := Unqueue(s.queueH, s.dlgs[d].timerH)), d,
           s.dlgs[d].(timerG := None, timerH := None, inviteIrq := None))
  }

  lemma StopBothAndForget(s: State, d: SipDialog)
    requires d in s.dlgs
    ensures ClearSipTimers(s, d) == ForgetInvite(StopH(StopG(s, d), d), d)
  {
    assert ForgetInvite(StopH(StopG(s, d), d), d).dlgs == ClearSipTimers(s, d).dlgs;
  }

  /** findAndRemoveTransactionIdForIncomingRequest followed by nta_incoming_destroy. */
  ghost function TakeIrq(s: State, t: Txn): State {
    if t in s.irqs then Destroy(s.(irqs := s.irqs - {t}), s.irqs[t]) else s
  }

  ghost function RegisterIrq(s: State, t: Txn, irq: Irq, who: Owner): State {
    s.(irqs := s.irqs[t := irq], owner := s.owner[t := who])
  }

  ghost function AddPending(s: State, d: SipDialog, t: Txn): (r: State)
    requires d in s.dlgs
    ensures r.dlgs.Keys == s.dlgs.Keys && r.iips == s.iips && r.stable == s.stable
  {
    SetDlg(s, d, s.dlgs[d].(pending := s.dlgs[d].pending + {t}))
  }

  ghost function DropPending(s: State, d: SipDialog, t: Txn): (r: State)
    requires d in s.dlgs
    ensures r.dlgs.Keys == s.dlgs.Keys && r.iips == s.iips && r.stable == s.stable
  {
    SetDlg(s, d, s.dlgs[d].(pending := s.dlgs[d].pending - {t}))
  }
}
