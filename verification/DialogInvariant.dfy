/** Every handler keeps the dialog invariant. */
module DialogInvariant {
  import opened Wrappers
  import opened SipDialogs
  import opened DialogSpec
  import opened DialogHandlers

  /** An irq handed over, not yet destroyed, and in no table. */
  ghost predicate Loose(s: State, irq: Irq) {
    irq in s.seen && irq !in s.destroyed && InNoTable(s, irq)
  }

  // ---------- facts the invariant gives, one at a time ----------

  lemma TableFacts(s: State)
    requires Inv(s)
    ensures Links(s) && Tracked(s)
  {
  }

  lemma QueueFacts(s: State)
    requires Inv(s)
    ensures forall h :: h in s.queueG ==> s.queueG[h] in s.dlgs && s.dlgs[s.queueG[h]].timerG == Some(h)
    ensures forall h :: h in s.queueH ==> s.queueH[h] in s.dlgs && s.dlgs[s.queueH[h]].timerH == Some(h)
  {
  }

  lemma IipFacts(s: State, t: Txn)
    requires Inv(s) && t in s.iips
    ensures s.iips[t].dlg in s.dlgs
    ensures
      var r := s.dlgs[s.iips[t].dlg];
      r.leg == s.iips[t].leg && r.txn == t && (s.iips[t].irq.Some? ==> r.uas)
      && (s.iips[t].irq.None? && r.uas ==> r.status >= 200)
    ensures s.iips[t].irq.Some? ==> s.iips[t].irq.value !in s.destroyed
  {
  }

  /** A handle that is set names an entry still queued, or one that never was. */
  ghost predicate Live(handle: Option<Timer>, queue: map<Timer, SipDialog>, lost: set<Timer>) {
    handle.Some? ==> handle.value in queue || handle.value in lost
  }

  lemma HandlesQueued(s: State, d: SipDialog)
    requires Inv(s) && d in s.dlgs
    ensures Live(s.dlgs[d].timerG, s.queueG, s.lost) && Live(s.dlgs[d].timerH, s.queueH, s.lost)
  {
  }

  /** Removing a lost timer leaves its queue as it is. */
  lemma StopOfLost(s: State, d: SipDialog, h: Timer)
    requires Inv(s) && d in s.dlgs && h in s.lost
    ensures s.dlgs[d].timerG == Some(h) ==> StopG(s, d).queueG == s.queueG
    ensures s.dlgs[d].timerH == Some(h) ==> StopH(s, d).queueH == s.queueH
  {
  }

  lemma DialogFacts(s: State, d: SipDialog)
    requires Inv(s) && d in s.dlgs
    ensures s.dlgs[d].status < 200 ==> s.dlgs[d].timerG.None? && s.dlgs[d].timerH.None?
    ensures s.dlgs[d].timerG.Some? ==> s.dlgs[d].uas && s.dlgs[d].status >= 200
    ensures d in s.stable && s.dlgs[d].uas ==> s.dlgs[d].status >= 200
    ensures s.dlgs[d].updateIrq.Some? ==>
      && s.dlgs[d].updateTxn in s.irqs && s.irqs[s.dlgs[d].updateTxn] == s.dlgs[d].updateIrq.value
      && (forall e :: e in s.dlgs && e != d && s.dlgs[e].updateIrq.Some? ==> s.dlgs[e].updateTxn != s.dlgs[d].updateTxn)
  {
  }

  /** A transaction id outside the irq table is no UPDATE's, nor is one another dialog has pending. */
  lemma NotAnUpdate(s: State, t: Txn)
    requires Inv(s)
    ensures t !in s.irqs ==> ToldToApp(s, t)
    ensures (exists d :: d in s.dlgs && t in s.dlgs[d].pending && s.dlgs[d].updateIrq.None?) ==> ToldToApp(s, t)
  {
    if d :| d in s.dlgs && t in s.dlgs[d].pending && s.dlgs[d].updateIrq.None? {
      assert t in s.irqs ==> s.owner[t] == Of(d);
    }
  }

  /** Changing one dialog's record: each part of the invariant survives when the fields it reads do. */
  lemma RecordLinked(iips: Iips, stable: set<SipDialog>, dlgs: Dlgs, d: SipDialog, r: Dialog)
    requires Linked(iips, stable, dlgs) && d in dlgs
    requires r.leg == dlgs[d].leg && r.txn == dlgs[d].txn && r.uas == dlgs[d].uas && r.dialogId == dlgs[d].dialogId
    requires r.status == dlgs[d].status || r.status >= 200 || !r.uas || dlgs[d].status < 200
    ensures Linked(iips, stable, dlgs[d := r])
  {
  }

  lemma RecordInviteIrqs(iips: Iips, dlgs: Dlgs, d: SipDialog, r: Dialog)
    requires InviteIrqs(iips, dlgs) && d in dlgs
    requires r.txn == dlgs[d].txn && (r.inviteIrq.None? || r.inviteIrq == dlgs[d].inviteIrq)
    ensures InviteIrqs(iips, dlgs[d := r])
  {
  }

  lemma RecordTimers(g: map<Timer, SipDialog>, h: map<Timer, SipDialog>, lost: set<Timer>, next: Timer, dlgs: Dlgs,
                     d: SipDialog, r: Dialog)
    requires TimersG(g, lost, next, dlgs) && TimersH(h, lost, next, dlgs) && d in dlgs
    requires r.uas == dlgs[d].uas && (r.status == dlgs[d].status || dlgs[d].status < 200 || !r.uas)
    ensures r.timerG == dlgs[d].timerG ==> TimersG(g, lost, next, dlgs[d := r])
    ensures r.timerH == dlgs[d].timerH ==> TimersH(h, lost, next, dlgs[d := r])
  {
  }

  lemma RecordOwners(irqs: map<Txn, Irq>, owner: map<Txn, Owner>, dlgs: Dlgs, d: SipDialog, r: Dialog)
    requires Owners(irqs, owner, dlgs) && Updates(irqs, owner, dlgs) && d in dlgs
    ensures r.pending == dlgs[d].pending ==> Owners(irqs, owner, dlgs[d := r])
    ensures r.updateIrq.None? || (r.updateIrq == dlgs[d].updateIrq && r.updateTxn == dlgs[d].updateTxn)
            ==> Updates(irqs, owner, dlgs[d := r])
  {
  }

  /** The same for the whole state, when the timer handles stay as they are. */
  lemma RecordKeeps(s: State, d: SipDialog, r: Dialog)
    requires Inv(s) && d in s.dlgs
    requires
      var o := s.dlgs[d];
      && r.leg == o.leg && r.txn == o.txn && r.uas == o.uas && r.dialogId == o.dialogId
      && (r.status == o.status || !r.uas || o.status < 200)
      && r.timerG == o.timerG && r.timerH == o.timerH && r.pending == o.pending
      && (r.inviteIrq.None? || r.inviteIrq == o.inviteIrq)
      && (r.updateIrq.None? || (r.updateIrq == o.updateIrq && r.updateTxn == o.updateTxn))
    ensures Inv(SetDlg(s, d, r))
  {
    RecordLinked(s.iips, s.stable, s.dlgs, d, r);
    RecordInviteIrqs(s.iips, s.dlgs, d, r);
    RecordTimers(s.queueG, s.queueH, s.lost, s.nextTimer, s.dlgs, d, r);
    RecordOwners(s.irqs, s.owner, s.dlgs, d, r);
  }

  // ---------- primitives ----------

  lemma ArriveKeeps(s: State, irq: Irq)
    requires Inv(s) && FreshIrq(s, irq)
    ensures Inv(Arrive(s, irq)) && Loose(Arrive(s, irq), irq)
  {
    var r := Arrive(s, irq);
    assert Irqs(r.iips, r.irqs, r.seen, r.destroyed, r.again);
  }

  lemma DestroyKeeps(s: State, irq: Irq)
    requires Inv(s) && Loose(s, irq)
    ensures Inv(Destroy(s, irq))
  {
    var r := Destroy(s, irq);
    assert Irqs(r.iips, r.irqs, r.seen, r.destroyed, r.again);
  }

  /** The queued entry and the handle go together, so removing both keeps them one-to-one. */
  lemma StopTimers(g: map<Timer, SipDialog>, h: map<Timer, SipDialog>, lost: set<Timer>, next: Timer, dlgs: Dlgs,
                   d: SipDialog, r: Dialog)
    requires TimersG(g, lost, next, dlgs) && TimersH(h, lost, next, dlgs) && d in dlgs
    ensures r.timerG.None? ==> TimersG(Unqueue(g, dlgs[d].timerG), lost, next, dlgs[d := r])
    ensures r.timerH.None? ==> TimersH(Unqueue(h, dlgs[d].timerH), lost, next, dlgs[d := r])
  {
  }

  /** Stopping timer G, timer H or both, and possibly forgetting the INVITE irq. */
  lemma StopKeeps(s: State, d: SipDialog, r: Dialog)
    requires Inv(s) && d in s.dlgs
    requires r == s.dlgs[d].(timerG := r.timerG, timerH := r.timerH, inviteIrq := r.inviteIrq)
    requires r.timerG.None? || r.timerG == s.dlgs[d].timerG
    requires r.timerH.None? || r.timerH == s.dlgs[d].timerH
    requires r.inviteIrq.None? || r.inviteIrq == s.dlgs[d].inviteIrq
    ensures
      var g := if r.timerG.None? then Unqueue(s.queueG, s.dlgs[d].timerG) else s.queueG;
      var h := if r.timerH.None? then Unqueue(s.queueH, s.dlgs[d].timerH) else s.queueH;
      Inv(s.(queueG := g, queueH := h, dlgs := s.dlgs[d := r]))
  {
    StopTimers(s.queueG, s.queueH, s.lost, s.nextTimer, s.dlgs, d, r);
    RecordLinked(s.iips, s.stable, s.dlgs, d, r);
    RecordInviteIrqs(s.iips, s.dlgs, d, r);
    RecordTimers(s.queueG, s.queueH, s.lost, s.nextTimer, s.dlgs, d, r);
    RecordOwners(s.irqs, s.owner, s.dlgs, d, r);
  }

  lemma ClearSipTimersKeeps(s: State, d: SipDialog)
    requires Inv(s) && d in s.dlgs
    ensures Inv(ClearSipTimers(s, d))
  {
    hide Linked, InviteIrqs, TimersG, TimersH, Irqs, Owners, Updates;
    StopKeeps(s, d, s.dlgs[d].(timerG := None, timerH := None, inviteIrq := None));
  }

  lemma ForgetInviteKeeps(s: State, d: SipDialog)
    requires Inv(s) && d in s.dlgs
    ensures Inv(ForgetInvite(s, d))
  {
    RecordKeeps(s, d, s.dlgs[d].(inviteIrq := None));
  }

  /** One entry per leg, so erasing by leg erases exactly the entry found. */
  lemma OneIipPerLeg(s: State, t: Txn, u: Txn)
    requires Links(s) && t in s.iips && u in s.iips && s.iips[t].leg == s.iips[u].leg
    ensures t == u
  {
  }

  lemma OneIipPerIrq(s: State, t: Txn, u: Txn)
    requires Inv(s) && t in s.iips && u in s.iips && s.iips[t].irq.Some? && s.iips[t].irq == s.iips[u].irq
    ensures t == u
  {
  }

  lemma OneDialogPerKey(s: State, d: SipDialog, e: SipDialog)
    requires Links(s) && d in s.stable && e in s.stable && d in s.dlgs && e in s.dlgs
    requires s.dlgs[d].leg == s.dlgs[e].leg || s.dlgs[d].dialogId == s.dlgs[e].dialogId
    ensures d == e
  {
  }

  lemma IipClearRemovesOne(s: State, t: Txn)
    requires Links(s) && t in s.iips
    ensures IipClear(s, t).iips == s.iips - {t}
  {
    forall u | u in s.iips && s.iips[u].leg == s.iips[t].leg
      ensures u == t
    {
      OneIipPerLeg(s, t, u);
    }
  }

  lemma EraseLinked(iips: Iips, stable: set<SipDialog>, dlgs: Dlgs, t: Txn)
    requires Linked(iips, stable, dlgs)
    ensures Linked(iips - {t}, stable, dlgs)
  {
  }

  lemma EraseIrqs(iips: Iips, irqs: map<Txn, Irq>, seen: set<Irq>, destroyed: multiset<Irq>, again: multiset<Irq>,
                  t: Txn)
    requires Irqs(iips, irqs, seen, destroyed, again) && t in iips
    ensures Irqs(iips - {t}, irqs, seen, destroyed, again)
    ensures iips[t].irq.Some? ==> Irqs(iips - {t}, irqs, seen, destroyed + multiset{iips[t].irq.value}, again)
  {
  }

  lemma EraseInviteIrqs(iips: Iips, dlgs: Dlgs, t: Txn)
    requires InviteIrqs(iips, dlgs)
    requires t in iips && iips[t].dlg in dlgs && dlgs[iips[t].dlg].inviteIrq.None?
    ensures InviteIrqs(iips - {t}, dlgs)
  {
  }

  lemma EraseKeeps(s: State, t: Txn)
    requires Inv(s) && t in s.iips && s.dlgs[s.iips[t].dlg].inviteIrq.None?
    ensures var r := s.(iips := s.iips - {t});
      Inv(r) && (s.iips[t].irq.Some? ==> Inv(Destroy(r, s.iips[t].irq.value)))
  {
    EraseLinked(s.iips, s.stable, s.dlgs, t);
    EraseIrqs(s.iips, s.irqs, s.seen, s.destroyed, s.again, t);
    EraseInviteIrqs(s.iips, s.dlgs, t);
  }

  /** A dialog remembers an INVITE irq only while its entry holds that irq. */
  lemma NoInviteIrq(iips: Iips, dlgs: Dlgs, t: Txn)
    requires InviteIrqs(iips, dlgs) && t in iips && iips[t].dlg in dlgs
    requires dlgs[iips[t].dlg].txn == t && iips[t].irq.None?
    ensures dlgs[iips[t].dlg].inviteIrq.None?
  {
  }

  lemma IipClearKeeps(s: State, t: Txn)
    requires Inv(s) && t in s.iips
    ensures Inv(IipClear(s, t)) && IipClear(s, t).iips == s.iips - {t}
    ensures s.iips[t].irq.Some? ==> s.iips[t].irq.value in IipClear(s, t).destroyed
  {
    IipClearRemovesOne(s, t);
    if s.iips[t].irq.Some? {
      ForgetInviteKeeps(s, s.iips[t].dlg);
      EraseKeeps(ForgetInvite(s, s.iips[t].dlg), t);
    } else {
      NoInviteIrq(s.iips, s.dlgs, t);
      EraseKeeps(s, t);
    }
  }

  lemma IipClearLegKeeps(s: State, leg: Leg)
    requires Inv(s)
    ensures Inv(IipClearLeg(s, leg))
    ensures forall t :: t in IipClearLeg(s, leg).iips ==> IipClearLeg(s, leg).iips[t].leg != leg
  {
    var t := IipByLeg(s.iips, leg);
    if t.Some? {
      IipClearKeeps(s, t.value);
      forall u | u in s.iips && s.iips[u].leg == leg
        ensures u == t.value
      {
        OneIipPerLeg(s, t.value, u);
      }
    }
  }

  lemma SdInsertKeeps(s: State, d: SipDialog)
    requires Inv(s) && d in s.dlgs
    requires s.dlgs[d].uas ==> s.dlgs[d].status >= 200
    ensures Inv(SdInsert(s, d))
  {
    hide InviteIrqs, TimersG, TimersH, Irqs, Owners, Updates;
    assert Links(SdInsert(s, d));
  }

  lemma SdClearKeeps(s: State, r: State)
    requires Inv(s) && r.stable <= s.stable && r == s.(stable := r.stable)
    ensures Inv(r)
  {
    hide InviteIrqs, TimersG, TimersH, Irqs, Owners, Updates;
    assert Links(r);
  }

  /** A new handle for a dialog whose handle was null, its entry queued or lost. */
  lemma StartTimer(g: map<Timer, SipDialog>, h: map<Timer, SipDialog>, lost: set<Timer>, next: Timer, dlgs: Dlgs,
                   d: SipDialog, r: Dialog, drop: bool)
    requires TimersG(g, lost, next, dlgs) && TimersH(h, lost, next, dlgs) && d in dlgs && r.uas && r.status >= 200
    ensures dlgs[d].timerG.None? && r.timerG == Some(next) ==>
              TimersG(Enqueue(g, next, d, drop), Lose(lost, next, drop), next + 1, dlgs[d := r])
    ensures dlgs[d].timerH.None? && r.timerH == Some(next) ==>
              TimersH(Enqueue(h, next, d, drop), Lose(lost, next, drop), next + 1, dlgs[d := r])
  {
  }

  /** The other queue never sees the new handle. */
  lemma NextTimer(g: map<Timer, SipDialog>, h: map<Timer, SipDialog>, lost: set<Timer>, next: Timer, dlgs: Dlgs,
                  drop: bool)
    ensures TimersG(g, lost, next, dlgs) ==> TimersG(g, Lose(lost, next, drop), next + 1, dlgs)
    ensures TimersH(h, lost, next, dlgs) ==> TimersH(h, Lose(lost, next, drop), next + 1, dlgs)
  {
  }

  lemma AddTimerGKeeps(s: State, d: SipDialog, lost: bool)
    requires Inv(s) && d in s.dlgs && s.dlgs[d].uas && s.dlgs[d].status >= 200 && s.dlgs[d].timerG.None?
    ensures Inv(AddTimerG(s, d, lost))
  {
    hide Linked, InviteIrqs, TimersG, TimersH, Irqs, Owners, Updates;
    var r := AddTimerG(s, d, lost).dlgs[d];
    RecordLinked(s.iips, s.stable, s.dlgs, d, r);
    RecordInviteIrqs(s.iips, s.dlgs, d, r);
    RecordTimers(s.queueG, s.queueH, s.lost, s.nextTimer, s.dlgs, d, r);
    RecordOwners(s.irqs, s.owner, s.dlgs, d, r);
    StartTimer(s.queueG, s.queueH, s.lost, s.nextTimer, s.dlgs, d, r, lost);
    NextTimer(s.queueG, s.queueH, s.lost, s.nextTimer, s.dlgs[d := r], lost);
  }

  lemma AddTimerHKeeps(s: State, d: SipDialog, lost: bool)
    requires Inv(s) && d in s.dlgs && s.dlgs[d].uas && s.dlgs[d].status >= 200 && s.dlgs[d].timerH.None?
    ensures Inv(AddTimerH(s, d, lost))
  {
    hide Linked, InviteIrqs, TimersG, TimersH, Irqs, Owners, Updates;
    var r := AddTimerH(s, d, lost).dlgs[d];
    RecordLinked(s.iips, s.stable, s.dlgs, d, r);
    RecordInviteIrqs(s.iips, s.dlgs, d, r);
    RecordTimers(s.queueG, s.queueH, s.lost, s.nextTimer, s.dlgs, d, r);
    RecordOwners(s.irqs, s.owner, s.dlgs, d, r);
    StartTimer(s.queueG, s.queueH, s.lost, s.nextTimer, s.dlgs, d, r, lost);
    NextTimer(s.queueG, s.queueH, s.lost, s.nextTimer, s.dlgs[d := r], lost);
  }

  /** Taking an entry out of the irq table leaves its irq loose. */
  lemma UnregisterKeeps(s: State, t: Txn)
    requires Inv(s) && ToldToApp(s, t) && t in s.irqs
    ensures Inv(s.(irqs := s.irqs - {t})) && Loose(s.(irqs := s.irqs - {t}), s.irqs[t])
  {
    var r := s.(irqs := s.irqs - {t});
    assert Irqs(r.iips, r.irqs, r.seen, r.destroyed, r.again);
    assert Owners(r.irqs, r.owner, r.dlgs);
    assert Updates(r.irqs, r.owner, r.dlgs);
  }

  lemma TakeIrqKeeps(s: State, t: Txn)
    requires Inv(s) && ToldToApp(s, t)
    ensures Inv(TakeIrq(s, t))
  {
    if t in s.irqs {
      UnregisterKeeps(s, t);
      DestroyKeeps(s.(irqs := s.irqs - {t}), s.irqs[t]);
    }
  }

  lemma DropPendingKeeps(s: State, d: SipDialog, t: Txn)
    requires Inv(s) && d in s.dlgs && t !in s.irqs
    ensures Inv(DropPending(s, d, t))
  {
    var r := s.dlgs[d].(pending := s.dlgs[d].pending - {t});
    RecordLinked(s.iips, s.stable, s.dlgs, d, r);
    RecordInviteIrqs(s.iips, s.dlgs, d, r);
    RecordTimers(s.queueG, s.queueH, s.lost, s.nextTimer, s.dlgs, d, r);
    RecordOwners(s.irqs, s.owner, s.dlgs, d, r);
    assert Owners(s.irqs, s.owner, s.dlgs[d := r]);
  }

  lemma AddPendingKeeps(s: State, d: SipDialog, t: Txn)
    requires Inv(s) && d in s.dlgs && t !in s.irqs
    ensures Inv(AddPending(s, d, t))
  {
    var r := s.dlgs[d].(pending := s.dlgs[d].pending + {t});
    RecordLinked(s.iips, s.stable, s.dlgs, d, r);
    RecordInviteIrqs(s.iips, s.dlgs, d, r);
    RecordTimers(s.queueG, s.queueH, s.lost, s.nextTimer, s.dlgs, d, r);
    RecordOwners(s.irqs, s.owner, s.dlgs, d, r);
    assert Owners(s.irqs, s.owner, s.dlgs[d := r]);
  }

  lemma InsertIrqs(iips: Iips, irqs: map<Txn, Irq>, seen: set<Irq>, destroyed: multiset<Irq>, again: multiset<Irq>,
                   t: Txn, irq: Irq)
    requires Irqs(iips, irqs, seen, destroyed, again) && t !in irqs && irq in seen && irq !in destroyed
    requires forall u :: u in irqs ==> irqs[u] != irq
    requires forall u :: u in iips ==> iips[u].irq != Some(irq)
    ensures Irqs(iips, irqs[t := irq], seen, destroyed, again)
  {
  }

  lemma InsertOwners(irqs: map<Txn, Irq>, owner: map<Txn, Owner>, dlgs: Dlgs, t: Txn, irq: Irq, who: Owner)
    requires Owners(irqs, owner, dlgs) && t !in irqs
    requires forall d :: d in dlgs && t in dlgs[d].pending ==> who == Of(d)
    requires who.Of? ==> who.dlg in dlgs && t in dlgs[who.dlg].pending
    ensures Owners(irqs[t := irq], owner[t := who], dlgs)
  {
  }

  lemma RegisterKeeps(s: State, t: Txn, irq: Irq, who: Owner)
    requires Inv(s) && Loose(s, irq) && t !in s.irqs && t !in s.owner
    requires forall d :: d in s.dlgs && t in s.dlgs[d].pending ==> who == Of(d)
    requires who.Of? ==> who.dlg in s.dlgs && t in s.dlgs[who.dlg].pending
    ensures Inv(RegisterIrq(s, t, irq, who))
  {
    InsertIrqs(s.iips, s.irqs, s.seen, s.destroyed, s.again, t, irq);
    InsertOwners(s.irqs, s.owner, s.dlgs, t, irq, who);
    assert Updates(s.irqs[t := irq], s.owner[t := who], s.dlgs);
  }

  lemma InsertLinked(iips: Iips, stable: set<SipDialog>, dlgs: Dlgs, t: Txn, iip: Iip)
    requires Linked(iips, stable, dlgs)
    requires iip.dlg in dlgs && iip.leg == dlgs[iip.dlg].leg && t == dlgs[iip.dlg].txn
    requires iip.irq.None? && dlgs[iip.dlg].uas ==> dlgs[iip.dlg].status >= 200
    requires iip.irq.Some? ==> dlgs[iip.dlg].uas
    ensures Linked(iips[t := iip], stable, dlgs)
  {
  }

  lemma InsertIipIrqs(iips: Iips, irqs: map<Txn, Irq>, seen: set<Irq>, destroyed: multiset<Irq>, again: multiset<Irq>,
                      t: Txn, iip: Iip)
    requires Irqs(iips, irqs, seen, destroyed, again) && t !in iips
    requires iip.irq.Some? ==>
      && iip.irq.value in seen && iip.irq.value !in destroyed
      && (forall u :: u in irqs ==> irqs[u] != iip.irq.value)
      && (forall u :: u in iips ==> iips[u].irq != iip.irq)
    ensures Irqs(iips[t := iip], irqs, seen, destroyed, again)
  {
  }

  lemma IipInsertKeeps(s: State, t: Txn, iip: Iip)
    requires Inv(s) && iip.dlg in s.dlgs && iip.leg == s.dlgs[iip.dlg].leg && t == s.dlgs[iip.dlg].txn
    requires iip.irq.None? && s.dlgs[iip.dlg].uas ==> s.dlgs[iip.dlg].status >= 200
    requires iip.irq.Some? ==> s.dlgs[iip.dlg].uas && Loose(s, iip.irq.value)
    ensures Inv(IipInsert(s, t, iip))
  {
    if t !in s.iips {
      InsertLinked(s.iips, s.stable, s.dlgs, t, iip);
      InsertIipIrqs(s.iips, s.irqs, s.seen, s.destroyed, s.again, t, iip);
      assert InviteIrqs(s.iips[t := iip], s.dlgs);
    }
  }

  lemma NewLinked(iips: Iips, stable: set<SipDialog>, dlgs: Dlgs, d: SipDialog, rec: Dialog)
    requires Linked(iips, stable, dlgs) && d !in dlgs
    requires forall e :: e in dlgs ==> dlgs[e].leg != rec.leg && dlgs[e].txn != rec.txn
    ensures Linked(iips, stable, dlgs[d := rec])
  {
  }

  lemma NewTimers(g: map<Timer, SipDialog>, h: map<Timer, SipDialog>, lost: set<Timer>, next: Timer, dlgs: Dlgs,
                  d: SipDialog, rec: Dialog)
    requires TimersG(g, lost, next, dlgs) && TimersH(h, lost, next, dlgs) && d !in dlgs
    requires rec.timerG.None? && rec.timerH.None?
    ensures TimersG(g, lost, next, dlgs[d := rec]) && TimersH(h, lost, next, dlgs[d := rec])
  {
  }

  lemma NewOwners(irqs: map<Txn, Irq>, owner: map<Txn, Owner>, dlgs: Dlgs, d: SipDialog, rec: Dialog)
    requires Owners(irqs, owner, dlgs) && Updates(irqs, owner, dlgs) && d !in dlgs
    requires rec.pending == {} && rec.updateIrq.None?
    ensures Owners(irqs, owner, dlgs[d := rec]) && Updates(irqs, owner, dlgs[d := rec])
  {
  }

  lemma NewDialogKeeps(s: State, d: SipDialog, rec: Dialog)
    requires Inv(s) && FreshDialog(s, d, rec)
    ensures Inv(SetDlg(s, d, rec))
  {
    NewLinked(s.iips, s.stable, s.dlgs, d, rec);
    NewTimers(s.queueG, s.queueH, s.lost, s.nextTimer, s.dlgs, d, rec);
    NewOwners(s.irqs, s.owner, s.dlgs, d, rec);
    assert InviteIrqs(s.iips, s.dlgs[d := rec]);
  }
}
