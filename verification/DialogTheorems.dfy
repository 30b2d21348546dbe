/** What holds in every reachable state of the dialog controller, whatever order the events come in. */
module DialogTheorems {
  import opened Wrappers
  import opened SipDialogs
  import opened DialogSpec
  import opened DialogHandlers
  import opened DialogInvariant
  import opened DialogRuns
  import opened DialogHistory

  datatype Event =
    | AppAnswers(t: Txn, a: Answer, setup: Setup, found: Option<SipDialog>)
    | AckArrives(leg: Leg, irq: Irq)
    | CancelArrives(leg: Leg, irq: Irq, forked: bool)
    | RequestArrives(leg: Leg, irq: Irq, t: Txn, method_: Method, routing: Routing)
    | LegRequest(leg: Leg, irq: Irq, q: InDialog, valid: bool, untagged: bool)
    | IrqEventArrives(irq: Irq, e: IrqEvent)
    | PrackArrives(irq: Irq, t: Txn, known: bool)
    | TimerG(h: Timer, lost: bool)
    | TimerH(h: Timer)
    | ByeTimeout(t: Txn)
    | AppInvites(d: SipDialog, rec: Dialog, orq: Orq)
    | AppSends(id: DialogId, what: Sent, fails: bool)
    | ResponseArrives(t: Txn, status: nat, subscribe: bool, reliable: bool)
    | DialogOver(id: DialogId)
    | StaleDialog(d: SipDialog)
    | CancelTimeout(t: Txn)
    | DestructorRuns(d: SipDialog, txns: seq<Txn>)

  /** Requests inside a dialog come in two ways: straight to the dialog controller for the legs of our own
      INVITEs, and through the controller above it for the others (LegRequest).
      What the stack and the applications guarantee about an event: handles handed over are new,
      applications answer what they were sent, and only queued timers fire. An irq found again for a
      pending request may have been destroyed, and any timer started may be lost. */
  ghost predicate Enabled(s: State, e: Event)
    requires Links(s)
  {
    match e
    case AppAnswers(t, a, setup, found) =>
      SetupOk(s, t, setup) && AnswerOk(s, t, a) && ToldToApp(s, t) && (found.Some? ==> found.value in s.dlgs)
    case AckArrives(_, irq) => FreshIrq(s, irq)
    case CancelArrives(_, irq, _) => FreshIrq(s, irq)
    case RequestArrives(_, irq, t, _, _) => FreshIrq(s, irq) && FreshTxn(s, t)
    case LegRequest(_, irq, q, _, _) => FreshIrq(s, irq) && (q.Another? ==> FreshTxn(s, q.t))
    case IrqEventArrives(_, _) => true
    case PrackArrives(irq, t, _) => FreshIrq(s, irq) && FreshTxn(s, t)
    case TimerG(h, _) => h in s.queueG && s.queueG[h] in s.dlgs
    case TimerH(h) => h in s.queueH && s.queueH[h] in s.dlgs
    case ByeTimeout(t) => t in s.owner && s.owner[t] == Bye
    case AppInvites(d, rec, _) => FreshDialog(s, d, rec) && !rec.uas
    case AppSends(_, _, _) => true
    case ResponseArrives(t, _, _, _) => t in s.iips && !s.dlgs[s.iips[t].dlg].uas
    case DialogOver(_) => true
    case StaleDialog(d) => d in s.dlgs
    case CancelTimeout(t) => t in s.iips
    case DestructorRuns(d, txns) => Unreferenced(s, d) && Lists(txns, s.dlgs[d].pending)
  }

  ghost function Step(s: State, e: Event): State
    requires Links(s) && Enabled(s, e)
  {
    match e
    case AppAnswers(t, a, setup, found) => Respond(s, t, a, setup, found)
    case AckArrives(leg, irq) => AckRequest(s, leg, irq)
    case CancelArrives(leg, irq, forked) => CancelRequest(s, leg, irq, forked)
    case RequestArrives(leg, irq, t, m, routing) => OtherRequest(s, leg, irq, t, m, routing)
    case LegRequest(leg, irq, q, valid, untagged) => FromLeg(s, leg, irq, q, valid, untagged)
    case IrqEventArrives(irq, ev) => IrqCallback(s, irq, ev)
    case PrackArrives(irq, t, found) => PrackRequest(s, irq, t, found)
    case TimerG(h, lost) => TimerGFires(s, h, lost)
    case TimerH(h) => TimerHFires(s, h)
    case ByeTimeout(t) => TakeIrq(s, t)
    case AppInvites(d, rec, orq) => SendInvite(s, d, rec, orq)
    case AppSends(id, m, fails) => SendInside(s, id, m, fails)
    case ResponseArrives(t, status, subscribe, reliable) => ResponseOutside(s, t, status, subscribe, reliable)
    case DialogOver(id) => SdClearId(s, id)
    case StaleDialog(d) => SdClearPtr(s, d)
    case CancelTimeout(t) => IipClear(s, t)
    case DestructorRuns(d, txns) => Reap(s, d, txns)
  }

  /** A run: a finite sequence of states from the empty tables, one enabled event apart. */
  ghost predicate IsRun(ss: seq<State>, es: seq<Event>) {
    && |ss| == |es| + 1 && ss[0] == Init
    && forall i :: 0 <= i < |es| ==>
         Links(ss[i]) && Enabled(ss[i], es[i]) && ss[i + 1] == Step(ss[i], es[i])
  }

  lemma StepKeeps(s: State, e: Event)
    requires Inv(s) && Enabled(s, e)
    ensures Inv(Step(s, e))
  {
    hide Linked, InviteIrqs, TimersG, TimersH, Irqs, Owners, Updates;
    TableFacts(s);
    match e
    case AppAnswers(t, a, setup, found) => RespondKeeps(s, t, a, setup, found);
    case AckArrives(leg, irq) => AckKeeps(s, leg, irq);
    case CancelArrives(leg, irq, forked) => CancelKeeps(s, leg, irq, forked);
    case RequestArrives(leg, irq, t, m, routing) => OtherRequestKeeps(s, leg, irq, t, m, routing);
    case LegRequest(leg, irq, q, valid, untagged) => FromLegKeeps(s, leg, irq, q, valid, untagged);
    case IrqEventArrives(irq, ev) => IrqCallbackKeeps(s, irq, ev);
    case PrackArrives(irq, t, found) => PrackKeeps(s, irq, t, found);
    case TimerG(h, lost) => TimerGKeeps(s, h, lost);
    case TimerH(h) => TimerHKeeps(s, h);
    case ByeTimeout(t) => ByeTimeoutKeeps(s, t);
    case AppInvites(d, rec, orq) => SendInviteKeeps(s, d, rec, orq);
    case AppSends(id, m, fails) => SendInsideKeeps(s, id, m, fails);
    case ResponseArrives(t, status, subscribe, reliable) => ResponseOutsideKeeps(s, t, status, subscribe, reliable);
    case DialogOver(id) => SdClearKeeps(s, SdClearId(s, id));
    case StaleDialog(d) => SdClearKeeps(s, SdClearPtr(s, d));
    case CancelTimeout(t) => IipClearKeeps(s, t);
    case DestructorRuns(d, txns) => ReapKeeps(s, d, txns);
  }

  lemma InitKeeps()
    ensures Inv(Init)
  {
  }

  lemma {:induction false} EveryRunSafe(ss: seq<State>, es: seq<Event>, i: nat)
    requires IsRun(ss, es) && i < |ss|
    ensures Inv(ss[i])
  {
    hide Inv, Step;
    if i == 0 {
      InitKeeps();
    } else {
      EveryRunSafe(ss, es, i - 1);
      StepKeeps(ss[i - 1], es[i - 1]);
    }
  }

  // ---------- what the invariant means ----------

  /** Timer G never retransmits on a destroyed transaction: the irq is the one of an invite in
      progress still in the table for that same dialog. */
  lemma RetransmitsLiveIrq(ss: seq<State>, es: seq<Event>, i: nat, h: Timer)
    requires IsRun(ss, es) && i < |ss| && h in ss[i].queueG
    ensures ss[i].queueG[h] in ss[i].dlgs
    ensures
      var s := ss[i]; var d := s.queueG[h]; var irq := Retransmits(s, h);
      irq.Some? ==>
        && irq.value !in s.destroyed && s.dlgs[d].txn in s.iips
        && s.iips[s.dlgs[d].txn].dlg == d && s.iips[s.dlgs[d].txn].irq == irq
  {
    EveryRunSafe(ss, es, i);
  }

  /** A queued timer entry is always that of the handle its dialog holds. A handle that is set has its
      entry queued exactly if that entry was not lost when it was added. */
  lemma HandleExactlyWhenQueued(ss: seq<State>, es: seq<Event>, i: nat, d: SipDialog, h: Timer)
    requires IsRun(ss, es) && i < |ss| && d in ss[i].dlgs
    ensures h in ss[i].queueG && ss[i].queueG[h] == d ==> ss[i].dlgs[d].timerG == Some(h)
    ensures h in ss[i].queueH && ss[i].queueH[h] == d ==> ss[i].dlgs[d].timerH == Some(h)
    ensures ss[i].dlgs[d].timerG == Some(h) ==> (h in ss[i].queueG && ss[i].queueG[h] == d <==> h !in ss[i].lost)
    ensures ss[i].dlgs[d].timerH == Some(h) ==> (h in ss[i].queueH && ss[i].queueH[h] == d <==> h !in ss[i].lost)
  {
    EveryRunSafe(ss, es, i);
  }

  /** Stopping a timer whose entry was lost takes nothing out of its queue. */
  lemma StoppingLostChangesNothing(ss: seq<State>, es: seq<Event>, i: nat, d: SipDialog, h: Timer)
    requires IsRun(ss, es) && i < |ss| && d in ss[i].dlgs && h in ss[i].lost
    ensures ss[i].dlgs[d].timerG == Some(h) ==> StopG(ss[i], d).queueG == ss[i].queueG
    ensures ss[i].dlgs[d].timerH == Some(h) ==> StopH(ss[i], d).queueH == ss[i].queueH
  {
    EveryRunSafe(ss, es, i);
    StopOfLost(ss[i], d, h);
  }

  /** A timer entry is dropped as it is added. */
  predicate Drops(e: Event) {
    (e.AppAnswers? && (e.a.lostG || e.a.lostH)) || (e.TimerG? && e.lost)
  }

  /** A plain answer goes out on an irq that has been destroyed already. */
  ghost predicate Repeats(s: State, e: Event, irq: Irq) {
    e.AppAnswers? && e.t !in s.irqs && e.t !in s.iips && e.setup == PlainRequest(irq) && irq in s.destroyed
  }

  /** What one event adds to the two histories. */
  lemma StepHistory(s: State, e: Event, irq: Irq)
    requires Inv(s) && Enabled(s, e)
    ensures Step(s, e).again[irq] == s.again[irq] + if Repeats(s, e, irq) then 1 else 0
    ensures !Drops(e) ==> Step(s, e).lost == s.lost
  {
    hide Linked, InviteIrqs, TimersG, TimersH, Irqs, Owners, Updates;
    hide Respond, AckRequest, CancelRequest, OtherRequest, FromLeg, IrqCallback, TimerGFires, TimerHFires, SendInside;
    hide ResponseOutside, Reap, IipClear, FreshTxn, FreshDialog, SetupOk, AnswerOk, ToldToApp, Unreferenced, Lists;
    TableFacts(s);
    match e
    case AppAnswers(t, a, setup, found) => RespondHistory(s, t, a, setup, found);
    case AckArrives(leg, i) => AckHistory(s, leg, i);
    case CancelArrives(leg, i, forked) => CancelHistory(s, leg, i, forked);
    case RequestArrives(leg, i, t, m, routing) => RequestHistory(s, leg, i, t, m, routing);
    case LegRequest(leg, i, q, valid, untagged) => FromLegHistory(s, leg, i, q, valid, untagged);
    case IrqEventArrives(i, ev) => CallbackHistory(s, i, ev);
    case PrackArrives(_, _, _) =>
    case TimerG(h, lost) => TimerGHistory(s, h, lost);
    case TimerH(h) => TimerHHistory(s, h);
    case ByeTimeout(_) =>
    case AppInvites(_, _, _) =>
    case AppSends(id, m, fails) => SendInsideHistory(s, id, m, fails);
    case ResponseArrives(t, status, subscribe, reliable) => ResponseHistory(s, t, status, subscribe, reliable);
    case DialogOver(_) =>
    case StaleDialog(_) =>
    case CancelTimeout(t) => IipClears(s, t);
    case DestructorRuns(d, txns) => ReapHistory(s, d, txns);
  }

  lemma {:induction false} NothingLost(ss: seq<State>, es: seq<Event>, i: nat)
    requires IsRun(ss, es) && i < |ss| && forall j :: 0 <= j < i ==> !Drops(es[j])
    ensures ss[i].lost == {}
  {
    hide Step, Inv;
    if i > 0 {
      NothingLost(ss, es, i - 1);
      EveryRunSafe(ss, es, i - 1);
      StepHistory(ss[i - 1], es[i - 1], 0);
    }
  }

  /** Without a dropped entry a handle is set exactly while its entry is queued. */
  lemma NoneDropped(ss: seq<State>, es: seq<Event>, i: nat, d: SipDialog, h: Timer)
    requires IsRun(ss, es) && i < |ss| && d in ss[i].dlgs && forall j :: 0 <= j < i ==> !Drops(es[j])
    ensures ss[i].dlgs[d].timerG == Some(h) <==> h in ss[i].queueG && ss[i].queueG[h] == d
    ensures ss[i].dlgs[d].timerH == Some(h) <==> h in ss[i].queueH && ss[i].queueH[h] == d
  {
    hide IsRun, Drops;
    NothingLost(ss, es, i);
    HandleExactlyWhenQueued(ss, es, i, d, h);
  }

  /** How many of the first `n` events are plain answers on `irq` when it was destroyed already. */
  ghost function TimesRepeated(ss: seq<State>, es: seq<Event>, n: nat, irq: Irq): nat
    requires n <= |es| && n <= |ss|
  {
    if n == 0 then 0
    else TimesRepeated(ss, es, n - 1, irq) + if Repeats(ss[n - 1], es[n - 1], irq) then 1 else 0
  }

  lemma {:induction false} AgainCounts(ss: seq<State>, es: seq<Event>, i: nat, irq: Irq)
    requires IsRun(ss, es) && i < |ss|
    ensures ss[i].again[irq] == TimesRepeated(ss, es, i, irq)
  {
    hide Step, Inv, Repeats;
    if i > 0 {
      AgainCounts(ss, es, i - 1, irq);
      EveryRunSafe(ss, es, i - 1);
      StepHistory(ss[i - 1], es[i - 1], irq);
    }
  }

  /** How often an irq has been destroyed: once, and once more by every plain answer that went out on
      it after that. */
  lemma DestroyedHowOften(ss: seq<State>, es: seq<Event>, i: nat, irq: Irq)
    requires IsRun(ss, es) && i < |ss|
    ensures ss[i].destroyed[irq] == if irq in ss[i].destroyed then 1 + TimesRepeated(ss, es, i, irq) else 0
    ensures irq !in ss[i].destroyed ==> TimesRepeated(ss, es, i, irq) == 0
  {
    EveryRunSafe(ss, es, i);
    AgainCounts(ss, es, i, irq);
  }

  lemma {:induction false} NeverRepeated(ss: seq<State>, es: seq<Event>, n: nat, irq: Irq)
    requires n <= |es| && n <= |ss|
    ensures TimesRepeated(ss, es, n, irq) == 0 <==> forall j :: 0 <= j < n ==> !Repeats(ss[j], es[j], irq)
  {
    if n > 0 {
      NeverRepeated(ss, es, n - 1, irq);
    }
  }

  /** An irq is destroyed at most once exactly if no plain answer went out on it after that; whatever
      the answers do, an irq still in a table has never been destroyed. */
  lemma DestroyedAtMostOnce(ss: seq<State>, es: seq<Event>, i: nat, irq: Irq)
    requires IsRun(ss, es) && i < |ss|
    ensures ss[i].destroyed[irq] <= 1 <==> forall j :: 0 <= j < i ==> !Repeats(ss[j], es[j], irq)
    ensures forall t :: t in ss[i].irqs ==> ss[i].irqs[t] !in ss[i].destroyed
    ensures forall t :: t in ss[i].iips && ss[i].iips[t].irq.Some? ==> ss[i].iips[t].irq.value !in ss[i].destroyed
  {
    EveryRunSafe(ss, es, i);
    DestroyedHowOften(ss, es, i, irq);
    NeverRepeated(ss, es, i, irq);
  }

  /** Once a dialog is destroyed no irq of its requests is left in the table: what remains belongs
      to a living dialog, to a BYE, which timeoutBye frees, or to a PRACK. */
  lemma NoOrphanIrq(ss: seq<State>, es: seq<Event>, i: nat, t: Txn)
    requires IsRun(ss, es) && i < |ss| && t in ss[i].irqs
    ensures t in ss[i].owner
    ensures ss[i].owner[t].Of? ==> ss[i].owner[t].dlg in ss[i].dlgs && t in ss[i].dlgs[ss[i].owner[t].dlg].pending
  {
    EveryRunSafe(ss, es, i);
  }

  /** At most one invite in progress per leg, although the leg index is not unique, so clearing by
      leg removes exactly the entry found. */
  lemma OneInvitePerLeg(ss: seq<State>, es: seq<Event>, i: nat, t: Txn, u: Txn)
    requires IsRun(ss, es) && i < |ss| && t in ss[i].iips && u in ss[i].iips
    requires ss[i].iips[t].leg == ss[i].iips[u].leg
    ensures t == u && Tracked(ss[i]) && IipClear(ss[i], t).iips == ss[i].iips - {t}
  {
    EveryRunSafe(ss, es, i);
    OneIipPerLeg(ss[i], t, u);
    IipClearRemovesOne(ss[i], t);
  }

  /** The leg finds the same dialog in either table. */
  lemma SameDialogInBothTables(ss: seq<State>, es: seq<Event>, i: nat, t: Txn, d: SipDialog)
    requires IsRun(ss, es) && i < |ss| && t in ss[i].iips && d in ss[i].stable && d in ss[i].dlgs
    requires ss[i].dlgs[d].leg == ss[i].iips[t].leg
    ensures ss[i].iips[t].dlg == d
  {
    EveryRunSafe(ss, es, i);
  }

  // ---------- where the guarantees stop ----------

  /** Why the transaction id of an UPDATE in progress must stay hidden: an application that answered
      by it and then answered the UPDATE through the INVITE would destroy one irq twice. */
  lemma HiddenUpdateMatters(s: State, t: Txn, a: Answer)
    requires Inv(s) && t in s.iips && a.cseqUpdate
    requires s.dlgs[s.iips[t].dlg].updateIrq.Some?
    ensures
      var r := s.dlgs[s.iips[t].dlg];
      !ToldToApp(s, r.updateTxn)
      && Respond(s, r.updateTxn, a, Nothing, None).destroyed[r.updateIrq.value] == 1
      && Links(Respond(s, r.updateTxn, a, Nothing, None))
      && AnswerInvite(Respond(s, r.updateTxn, a, Nothing, None), t, a).destroyed[r.updateIrq.value] == 2
  {
    var d := s.iips[t].dlg;
    DialogFacts(s, d);
    assert s.irqs[s.dlgs[d].updateTxn] !in s.destroyed;
  }

  // A run in which a PRACK outlives its dialog, state by state.

  function Ringing(d: SipDialog): Dialog { NewDialog(0, 0, 0, true, true).(status := 180) }

  const RING := Answer(180, false, false, true, true, true, true, false, false)

  function AfterRing(d: SipDialog): State {
    Init.(iips := map[0 := Iip(0, Some(0), None, d)], dlgs := map[d := Ringing(d)], seen := {0})
  }

  function AfterPrack(d: SipDialog): State {
    AfterRing(d).(irqs := map[1 := 1], owner := map[1 := Prack], seen := {0, 1})
  }

  function AfterCancel(d: SipDialog): State {
    AfterPrack(d).(iips := map[], destroyed := multiset{0})
  }

  lemma RingStep(d: SipDialog)
    ensures
      var e := AppAnswers(0, RING, NewDialogFor(d, NewDialog(0, 0, 0, true, true), 0), None);
      Enabled(Init, e) && Step(Init, e) == AfterRing(d)
  {
    var s := AddIncomingInvite(Init, 0, NewDialogFor(d, NewDialog(0, 0, 0, true, true), 0));
    assert s == AfterRing(d).(dlgs := map[d := NewDialog(0, 0, 0, true, true)]);
    assert AnswerInvite(s, 0, RING).dlgs == map[d := Ringing(d)];
  }

  lemma CancelStep(d: SipDialog)
    ensures var s, e := AfterPrack(d), IrqEventArrives(0, Cancel);
      Links(s) && Enabled(s, e) && Step(s, e) == AfterCancel(d)
  {
    var s := AfterPrack(d);
    assert IipByIrq(s.iips, 0) == Some(0) by {
      assert 0 in s.iips && s.iips[0].irq == Some(0);
    }
    assert IipClear(s, 0).iips == map[];
    assert IipClear(s, 0).dlgs == s.dlgs;
  }

  lemma PrackStep(d: SipDialog)
    ensures var s, e := AfterRing(d), PrackArrives(1, 1, true);
      Links(s) && Enabled(s, e) && Step(s, e) == AfterPrack(d)
  {
  }

  // A run in which one irq is destroyed twice: an OPTIONS in an early dialog that no client takes.

  const UNROUTED := Routing(false, false, false)

  function AfterOptions(d: SipDialog): State {
    AfterRing(d).(seen := {0, 1}, destroyed := multiset{1})
  }

  lemma OptionsStep(d: SipDialog)
    ensures var s, e := AfterRing(d), RequestArrives(0, 1, 1, OutOfDialogCapable_, UNROUTED);
      Links(s) && Enabled(s, e) && Step(s, e) == AfterOptions(d)
  {
    var s := Arrive(AfterRing(d), 1);
    assert DialogByLeg(s, 0) == Some(d) by {
      assert 0 in s.iips && s.iips[0].leg == 0;
    }
    assert DropPending(AddPending(s, d, 1), d, 1).dlgs == s.dlgs;
  }

  lemma PlainAnswerStep(d: SipDialog)
    ensures var s, e := AfterOptions(d), AppAnswers(2, RING, PlainRequest(1), None);
      Links(s) && Enabled(s, e)
      && Step(s, e) == s.(destroyed := multiset{1, 1}, again := multiset{1})
  {
  }

  lemma DestructorStep(d: SipDialog)
    ensures var s, e := AfterCancel(d), DestructorRuns(d, []);
      Links(s) && Enabled(s, e) && Step(s, e) == s.(dlgs := map[])
  {
    assert AfterCancel(d).dlgs - {d} == map[];
  }

  lemma ExtendRun(ss: seq<State>, es: seq<Event>, e: Event)
    requires IsRun(ss, es) && Links(ss[|es|]) && Enabled(ss[|es|], e)
    ensures IsRun(ss + [Step(ss[|es|], e)], es + [e])
  {
    hide Step, Links, Enabled;
  }

  /** The exception for PRACK is real: a PRACK whose INVITE is cancelled before the application answers
      it keeps its irq in the table after the dialog has been destroyed, with no timer to free it. */
  lemma PrackIrqCanOutliveDialog(d: SipDialog) returns (ss: seq<State>, es: seq<Event>)
    ensures IsRun(ss, es) && |es| == 4 && ss[1] == AfterRing(d)
    ensures ss[4].dlgs == map[] && 1 in ss[4].irqs && ss[4].owner == map[1 := Prack]
  {
    hide Step, Links, IsRun, Enabled;
    RingStep(d);
    PrackStep(d);
    CancelStep(d);
    DestructorStep(d);
    InitRuns();
    var e0 := AppAnswers(0, RING, NewDialogFor(d, NewDialog(0, 0, 0, true, true), 0), None);
    ss, es := [Init], [];
    ExtendRun(ss, es, e0);
    ss, es := ss + [AfterRing(d)], es + [e0];
    ExtendRun(ss, es, PrackArrives(1, 1, true));
    ss, es := ss + [AfterPrack(d)], es + [PrackArrives(1, 1, true)];
    ExtendRun(ss, es, IrqEventArrives(0, Cancel));
    ss, es := ss + [AfterCancel(d)], es + [IrqEventArrives(0, Cancel)];
    ExtendRun(ss, es, DestructorRuns(d, []));
    ss, es := ss + [AfterCancel(d).(dlgs := map[])], es + [DestructorRuns(d, [])];
  }

  lemma InitRuns()
    ensures IsRun([Init], []) && Links(Init)
  {
  }

  /** A run that destroys an irq twice: the OPTIONS of an early dialog is treated as a new request and
      its irq destroyed, and the application's answer then finds that same irq. */
  lemma PlainAnswerDestroysAgain(d: SipDialog) returns (ss: seq<State>, es: seq<Event>)
    ensures IsRun(ss, es) && |es| == 3 && ss[1] == AfterRing(d)
    ensures ss[2].destroyed == multiset{1} && Repeats(ss[2], es[2], 1) && ss[3].destroyed == multiset{1, 1}
  {
    hide Step, Links, IsRun, Enabled;
    RingStep(d);
    OptionsStep(d);
    PlainAnswerStep(d);
    InitRuns();
    var e0 := AppAnswers(0, RING, NewDialogFor(d, NewDialog(0, 0, 0, true, true), 0), None);
    var e1 := RequestArrives(0, 1, 1, OutOfDialogCapable_, UNROUTED);
    var e2 := AppAnswers(2, RING, PlainRequest(1), None);
    ss, es := [Init], [];
    ExtendRun(ss, es, e0);
    ss, es := ss + [AfterRing(d)], es + [e0];
    ExtendRun(ss, es, e1);
    ss, es := ss + [AfterOptions(d)], es + [e1];
    ExtendRun(ss, es, e2);
    ss, es := ss + [Step(AfterOptions(d), e2)], es + [e2];
  }
}
