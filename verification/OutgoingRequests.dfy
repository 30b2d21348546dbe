/** Who holds the pointer to each outgoing transaction and who destroys it: the requests in progress, the
    dialog objects and timer D (src/sip-dialog-controller.cpp, src/sip-dialog.cpp). */
module OutgoingSpec {
  import opened Wrappers
  import T = TimerDSpec

  type Orq = T.Orq
  type Dlg = nat
  type DialogId = nat

  /** Where the pointer is kept, or what became of it. */
  datatype Place = Request | InviteOf(dlg: Dlg) | DelayedAck(dlg: Dlg) | AckFor(invite: Orq) | Lost | Destroyed

  /** The outgoing transactions of a dialog object: m_orq, its INVITE, and m_orqAck. */
  datatype Own = Own(invite: Option<Orq>, ack: Option<Orq>)

  datatype State = State(
    rips: map<Orq, DialogId>,     // m_mapOrq2RIP
    dlgs: map<Dlg, Own>,          // every dialog object
    timerD: T.State,
    place: map<Orq, Place>,       // history: every transaction created
    inside: set<Orq>,             // history: those that were ever in m_mapOrq2RIP
    destroyed: multiset<Orq>)     // history: every nta_outgoing_destroy but those of timer D

  const NOTHING := State(map[], map[], T.START, map[], {}, multiset{})

  /** Every nta_outgoing_destroy. */
  function Total(s: State): multiset<Orq> { s.destroyed + s.timerD.destroyed }

  function Keep(s: State, o: Orq, p: Place): State { s.(place := s.place[o := p]) }

  function Destroy(s: State, o: Orq): State {
    s.(place := s.place[o := Destroyed], destroyed := s.destroyed + multiset{o})
  }

  // ---------- requests ----------

  /** clearRIP: the transaction is destroyed whether or not it is found. */
  function ClearRip(s: State, o: Orq): State { Destroy(s, o).(rips := s.rips - {o}) }

  /** An INVITE or SUBSCRIBE of ours, with its dialog object. */
  function SendInvite(s: State, d: Dlg, o: Orq): State {
    Keep(s, o, InviteOf(d)).(dlgs := s.dlgs[d := Own(Some(o), None)])
  }

  /** The dialog object of a request received. */
  function Receive(s: State, d: Dlg): State { s.(dlgs := s.dlgs[d := Own(None, None)]) }

  /** addRIP, for any other request. */
  function SendRequest(s: State, o: Orq, id: DialogId): State {
    Keep(s, o, Request).(rips := s.rips[o := id], inside := s.inside + {o})
  }

  /** How an ACK goes out: not resolved means that its transport is not known yet. */
  datatype Route = Datagram | Stream | Unresolved

  /** The application's ACK to a 200 OK. Timer D has no use for one whose INVITE does not wait, and a dialog
      has room for one delayed ACK. */
  function SendAck(s: State, d: Dlg, o: Orq, route: Route): State
    requires d in s.dlgs
  {
    match route
    case Datagram =>
      var waiting := s.timerD.pending;
      Keep(s, o, if T.Key(o) in waiting then AckFor(waiting[T.Key(o)]) else Lost).(timerD := T.AddAck(s.timerD, o))
    case Stream => Destroy(s, o)
    case Unresolved =>
      var own := s.dlgs[d];
      var s1 := if own.ack.Some? then Keep(s, own.ack.value, Lost) else s;
      Keep(s1, o, DelayedAck(d)).(dlgs := s.dlgs[d := own.(ack := Some(o))])
  }

  /** SipDialog::getTport, when the transport of the delayed ACK has become known. */
  function GetTport(s: State, d: Dlg): State
    requires d in s.dlgs
  {
    if s.dlgs[d].ack.Some? then
      Destroy(s, s.dlgs[d].ack.value).(dlgs := s.dlgs[d := s.dlgs[d].(ack := None)])
    else s
  }

  // ---------- responses ----------

  /** A 200 OK to an INVITE over a datagram transport. */
  function Answered(s: State, o: Orq, dropped: bool): State { s.(timerD := T.AddInvite(s.timerD, o, dropped)) }

  /** processResponseInsideDialog, for a response with any status. */
  function ResponseInside(s: State, o: Orq, answered: bool, dropped: bool): State {
    if o in s.rips then ClearRip(if answered then Answered(s, o, dropped) else s, o) else Destroy(s, o)
  }

  /** processResponseOutsideDialog, for a request that opens no dialog. */
  function ResponseOutside(s: State, o: Orq, status: nat): State {
    if o in s.rips && status >= 200 then ClearRip(s, o) else s
  }

  /** processResponseToRefreshingReinvite; no status when the transaction timed out. */
  function ResponseToRefresh(s: State, o: Orq, status: Option<nat>): State {
    if o !in s.rips then Destroy(s, o)
    else if status.Some? && status.value < 200 then s
    else ClearRip(s, o)
  }

  /** clearRIPByDialogId takes the first request of the dialog that it comes across. */
  predicate OneOf(s: State, id: DialogId, o: Option<Orq>) {
    if o.Some? then o.value in s.rips && s.rips[o.value] == id
    else forall p :: p in s.rips ==> s.rips[p] != id
  }

  function ClearByDialog(s: State, o: Option<Orq>): State { if o.Some? then ClearRip(s, o.value) else s }

  // ---------- timer D and the destructor ----------

  /** Timer D forgets an INVITE; the ACK it kept for it, if any, is destroyed with it. */
  function Forget(s: State, invite: Orq, td: T.State): State {
    s.(timerD := td,
       place := if T.Key(invite) !in s.timerD.pending && invite in s.timerD.acked
                then s.place[s.timerD.acked[invite] := Destroyed] else s.place)
  }

  function TimerFires(s: State, invite: Orq): State { Forget(s, invite, T.TimerFires(s.timerD, invite)) }

  function StopTimerD(s: State, invite: Orq): State { Forget(s, invite, T.ClearTimerD(s.timerD, invite).0) }

  function DestroyIfAny(s: State, o: Option<Orq>): State { if o.Some? then Destroy(s, o.value) else s }

  /** ~SipDialog. */
  function DestroyDialog(s: State, d: Dlg): State
    requires d in s.dlgs
  {
    var own := s.dlgs[d];
    var s1 := if own.invite.Some? then StopTimerD(s, own.invite.value) else s;
    DestroyIfAny(DestroyIfAny(s1, own.ack), own.invite).(dlgs := s.dlgs - {d})
  }
}

module OutgoingControllers {
  import opened Wrappers
  import opened OutgoingSpec
  import T = TimerDSpec
  import H = TimerDHandlers

  class OutgoingController {
    var rips: map<Orq, DialogId>
    var dlgs: map<Dlg, Own>
    const timerD: H.TimerDHandler
    ghost var place: map<Orq, Place>
    ghost var inside: set<Orq>
    ghost var destroyed: multiset<Orq>

    ghost function View(): State
      reads this, timerD
    {
      State(rips, dlgs, timerD.View(), place, inside, destroyed)
    }

    constructor ()
      ensures View() == NOTHING && fresh(timerD)
    {
      rips, dlgs := map[], map[];
      timerD := new H.TimerDHandler();
      place, inside, destroyed := map[], {}, multiset{};
    }

    ghost method NtaOutgoingDestroy(o: Orq)
      modifies this`place, this`destroyed
      ensures View() == Destroy(old(View()), o)
    {
      place, destroyed := place[o := Destroyed], destroyed + multiset{o};
    }

    method ClearRip(o: Orq)
      modifies this
      ensures View() == OutgoingSpec.ClearRip(old(View()), o)
    {
      NtaOutgoingDestroy(o);
      if o in rips {
        rips := rips - {o};
      }
    }

    method SendInvite(d: Dlg, o: Orq)
      modifies this
      ensures View() == OutgoingSpec.SendInvite(old(View()), d, o)
    {
      dlgs := dlgs[d := Own(Some(o), None)];
      place := place[o := InviteOf(d)];
    }

    method Receive(d: Dlg)
      modifies this`dlgs
      ensures View() == OutgoingSpec.Receive(old(View()), d)
    {
      dlgs := dlgs[d := Own(None, None)];
    }

    method SendRequest(o: Orq, id: DialogId)
      modifies this
      ensures View() == OutgoingSpec.SendRequest(old(View()), o, id)
    {
      rips := rips[o := id];
      place, inside := place[o := Request], inside + {o};
    }

    /** doSendRequestInsideDialog, ACK. */
    method SendAck(d: Dlg, o: Orq, route: Route)
      requires d in dlgs
      modifies this, timerD
      ensures View() == OutgoingSpec.SendAck(old(View()), d, o, route)
    {
      match route
      case Datagram =>
        place := place[o := if T.Key(o) in timerD.pending then AckFor(timerD.pending[T.Key(o)]) else Lost];
        timerD.AddAck(o);
      case Stream =>
        NtaOutgoingDestroy(o);
      case Unresolved =>
        if dlgs[d].ack.Some? { place := place[dlgs[d].ack.value := Lost]; }
        place := place[o := DelayedAck(d)];
        dlgs := dlgs[d := dlgs[d].(ack := Some(o))];
    }

    method GetTport(d: Dlg)
      requires d in dlgs
      modifies this
      ensures View() == OutgoingSpec.GetTport(old(View()), d)
    {
      if dlgs[d].ack.Some? {
        NtaOutgoingDestroy(dlgs[d].ack.value);
        dlgs := dlgs[d := dlgs[d].(ack := None)];
      }
    }

    /** The server's own ACK or BYE: sent and let go. */
    method SendAndForget(o: Orq)
      modifies this
      ensures View() == Destroy(old(View()), o)
    {
      NtaOutgoingDestroy(o);
    }

    method InviteAnswered(o: Orq, dropped: bool)
      modifies timerD
      ensures View() == Answered(old(View()), o, dropped)
    {
      timerD.AddInvite(o, dropped);
    }

    method ResponseInside(o: Orq, answered: bool, dropped: bool)
      modifies this, timerD
      ensures View() == OutgoingSpec.ResponseInside(old(View()), o, answered, dropped)
    {
      if o in rips {
        if answered {
          timerD.AddInvite(o, dropped);
        }
        ClearRip(o);
      } else {
        NtaOutgoingDestroy(o);
      }
    }

    method ResponseOutside(o: Orq, status: nat)
      modifies this
      ensures View() == OutgoingSpec.ResponseOutside(old(View()), o, status)
    {
      if o in rips && status >= 200 {
        ClearRip(o);
      }
    }

    method ResponseToRefresh(o: Orq, status: Option<nat>)
      modifies this
      ensures View() == OutgoingSpec.ResponseToRefresh(old(View()), o, status)
    {
      if o !in rips {
        NtaOutgoingDestroy(o);
      } else if status.None? || status.value >= 200 {
        ClearRip(o);
      }
    }

    /** A BYE that meets a re-INVITE of ours still unanswered. */
    method ClearReinvite(o: Orq)
      modifies this
      ensures View() == if o in old(rips) then OutgoingSpec.ClearRip(old(View()), o) else old(View())
    {
      if o in rips {
        ClearRip(o);
      }
    }

    method ClearRipByDialogId(id: DialogId) returns (o: Option<Orq>)
      modifies this
      ensures OneOf(old(View()), id, o) && View() == ClearByDialog(old(View()), o)
    {
      o := None;
      if p :| p in rips && rips[p] == id {
        o := Some(p);
        ClearRip(p);
      }
    }

    method TimerD(o: Orq)
      requires o in timerD.timers
      modifies this, timerD
      ensures View() == TimerFires(old(View()), o)
    {
      place := Forget(View(), o, timerD.View()).place;
      timerD.TimerD(o);
    }

    method StopTimerD(o: Orq)
      modifies this`place, timerD
      ensures View() == OutgoingSpec.StopTimerD(old(View()), o)
    {
      place := Forget(View(), o, timerD.View()).place;
      var _ := timerD.ClearTimerD(o);
    }

    method DestroyDialog(d: Dlg)
      requires d in dlgs
      modifies this, timerD
      ensures View() == OutgoingSpec.DestroyDialog(old(View()), d)
    {
      hide OutgoingSpec.StopTimerD;
      var own := dlgs[d];
      if own.invite.Some? {
        StopTimerD(own.invite.value);
      }
      if own.ack.Some? {
        NtaOutgoingDestroy(own.ack.value);
      }
      if own.invite.Some? {
        NtaOutgoingDestroy(own.invite.value);
      }
      dlgs := dlgs - {d};
    }
  }
}

module OutgoingRuns {
  import opened Wrappers
  import opened OutgoingSpec
  import T = TimerDSpec
  import R = TimerDRuns

  // ---------- the invariant ----------

  type Places = map<Orq, Place>

  predicate At(place: Places, o: Orq, p: Place) { o in place && place[o] == p }

  /** A transaction is not created yet, or nothing refers to it. */
  predicate Free(place: Places, o: Orq) { o in place ==> place[o] == Destroyed || place[o] == Lost }

  ghost predicate Requests(rips: map<Orq, DialogId>, inside: set<Orq>, place: Places) {
    && (forall o :: o in rips ==> At(place, o, Request))
    && (forall o :: o in place && place[o] == Request ==> o in rips)
    && (forall o :: o in inside ==> At(place, o, Request) || At(place, o, Destroyed))
  }

  ghost predicate Dialogs(dlgs: map<Dlg, Own>, place: Places) {
    && (forall d :: d in dlgs && dlgs[d].invite.Some? ==> At(place, dlgs[d].invite.value, InviteOf(d)))
    && (forall d :: d in dlgs && dlgs[d].ack.Some? ==> At(place, dlgs[d].ack.value, DelayedAck(d)))
    && (forall o :: o in place && place[o].InviteOf? ==>
          place[o].dlg in dlgs && dlgs[place[o].dlg].invite == Some(o))
    && (forall o :: o in place && place[o].DelayedAck? ==>
          place[o].dlg in dlgs && dlgs[place[o].dlg].ack == Some(o))
  }

  /** Timer D holds the ACKs that have their place there, and what it stored is there or destroyed. */
  ghost predicate Acks(acked: map<Orq, Orq>, stored: set<Orq>, place: Places) {
    && (forall i :: i in acked ==> At(place, acked[i], AckFor(i)))
    && (forall o :: o in place && place[o].AckFor? ==>
          place[o].invite in acked && acked[place[o].invite] == o)
    && (forall o :: o in stored ==> o in place && (place[o].AckFor? || place[o].Destroyed?))
    && (forall i :: i in acked ==> acked[i] in stored)
  }

  /** An INVITE timer D still holds is destroyed exactly if it was sent inside a dialog. */
  ghost predicate Invites(added: set<Orq>, ended: set<Orq>, inside: set<Orq>, place: Places) {
    && (forall o :: o in added ==> o in place && (place[o].InviteOf? || place[o].Destroyed?))
    && (forall o :: o in added && o !in ended ==> (place[o].Destroyed? <==> o in inside))
  }

  ghost predicate Counts(destroyed: multiset<Orq>, stored: set<Orq>, place: Places) {
    forall o :: destroyed[o] == if At(place, o, Destroyed) && o !in stored then 1 else 0
  }

  ghost predicate Inv(s: State) {
    && R.Inv(s.timerD)
    && Requests(s.rips, s.inside, s.place)
    && Dialogs(s.dlgs, s.place)
    && Acks(s.timerD.acked, s.timerD.stored, s.place)
    && Invites(s.timerD.added, s.timerD.ended, s.inside, s.place)
    && Counts(s.destroyed, s.timerD.stored, s.place)
  }

  // ---------- runs ----------

  datatype Event =
    | AppInvites(d: Dlg, o: Orq)
    | InviteArrives(d: Dlg)
    | AppRequests(o: Orq, id: DialogId)
    | AppAcks(d: Dlg, o: Orq, route: Route)
    | TportKnown(d: Dlg)
    | ServerSends(o: Orq)
    | InviteAnswered(o: Orq, dropped: bool)
    | InsideResponse(o: Orq, answered: bool, dropped: bool)
    | OutsideResponse(o: Orq, status: nat)
    | RefreshResponse(o: Orq, outcome: Option<nat>)
    | ByeMeetsReinvite(o: Orq)
    | AppByes(id: DialogId, victim: Option<Orq>)
    | TimerD(o: Orq)
    | DestructorRuns(d: Dlg)

  /** A transaction created is a new one, and the stack calls back only on one that is not destroyed. */
  predicate Enabled(s: State, e: Event) {
    match e
    case AppInvites(d, o) => o !in s.place && d !in s.dlgs
    case InviteArrives(d) => d !in s.dlgs
    case AppRequests(o, _) => o !in s.place
    case AppAcks(d, o, _) => o !in s.place && d in s.dlgs
    case TportKnown(d) => d in s.dlgs
    case ServerSends(o) => o !in s.place
    case InviteAnswered(o, _) =>
      && o in s.place && s.place[o].InviteOf?
      && !T.Resend(s.timerD, o).0
    case InsideResponse(o, _, _) => o in s.inside && !At(s.place, o, Destroyed)
    case OutsideResponse(o, _) => o in s.inside && !At(s.place, o, Destroyed)
    case RefreshResponse(o, _) => o in s.inside && !At(s.place, o, Destroyed)
    case ByeMeetsReinvite(_) => true
    case AppByes(id, o) => OneOf(s, id, o)
    case TimerD(o) => o in s.timerD.timers
    case DestructorRuns(d) => d in s.dlgs
  }

  function Step(s: State, e: Event): State
    requires Enabled(s, e)
  {
    match e
    case AppInvites(d, o) => SendInvite(s, d, o)
    case InviteArrives(d) => Receive(s, d)
    case AppRequests(o, id) => SendRequest(s, o, id)
    case AppAcks(d, o, route) => SendAck(s, d, o, route)
    case TportKnown(d) => GetTport(s, d)
    case ServerSends(o) => Destroy(s, o)
    case InviteAnswered(o, dropped) => Answered(s, o, dropped)
    case InsideResponse(o, answered, dropped) => ResponseInside(s, o, answered, dropped)
    case OutsideResponse(o, status) => ResponseOutside(s, o, status)
    case RefreshResponse(o, status) => ResponseToRefresh(s, o, status)
    case ByeMeetsReinvite(o) => if o in s.rips then ClearRip(s, o) else s
    case AppByes(_, o) => ClearByDialog(s, o)
    case TimerD(o) => TimerFires(s, o)
    case DestructorRuns(d) => DestroyDialog(s, d)
  }

  predicate IsRun(ss: seq<State>, es: seq<Event>) {
    && |ss| == |es| + 1 && ss[0] == NOTHING
    && forall i :: 0 <= i < |es| ==> Enabled(ss[i], es[i]) && ss[i + 1] == Step(ss[i], es[i])
  }

  // ---------- one place changes ----------

  lemma SetRequests(rips: map<Orq, DialogId>, inside: set<Orq>, place: Places, o: Orq, p: Place)
    requires Requests(rips, inside, place) && o !in rips && p != Request && (o in inside ==> p == Destroyed)
    ensures Requests(rips, inside, place[o := p])
  {
  }

  lemma SetDialogs(dlgs: map<Dlg, Own>, place: Places, o: Orq, p: Place)
    requires Dialogs(dlgs, place) && (o in place ==> !place[o].InviteOf? && !place[o].DelayedAck?)
    requires !p.InviteOf? && !p.DelayedAck?
    ensures Dialogs(dlgs, place[o := p])
  {
  }

  lemma SetAcks(acked: map<Orq, Orq>, stored: set<Orq>, place: Places, o: Orq, p: Place)
    requires Acks(acked, stored, place) && (o in place ==> !place[o].AckFor?)
    requires !p.AckFor? && (o in stored ==> p == Destroyed)
    ensures Acks(acked, stored, place[o := p])
  {
  }

  lemma SetInvites(added: set<Orq>, ended: set<Orq>, inside: set<Orq>, place: Places, o: Orq, p: Place)
    requires Invites(added, ended, inside, place)
    requires o in added ==> p == Destroyed && (o in ended || o in inside)
    ensures Invites(added, ended, inside, place[o := p])
  {
  }

  /** The transaction is none of timer D's ACKs and was not destroyed. */
  lemma SetCounts(destroyed: multiset<Orq>, stored: set<Orq>, place: Places, o: Orq, p: Place)
    requires Counts(destroyed, stored, place) && o !in stored && (o in place ==> place[o] != Destroyed)
    ensures p == Destroyed ==> Counts(destroyed + multiset{o}, stored, place[o := p])
    ensures p != Destroyed ==> Counts(destroyed, stored, place[o := p])
  {
  }

  lemma NewFacts(s: State, o: Orq)
    requires Inv(s) && (o in s.place ==> s.place[o] == Lost)
    ensures o !in s.rips && o !in s.inside && o !in s.timerD.stored && o !in s.timerD.added
  {
    hide R.Inv;
  }

  /** All but the tables that refer to the transaction. */
  lemma NewKeeps(s: State, o: Orq, p: Place)
    requires Inv(s) && o !in s.place
    ensures p != Request ==> Requests(s.rips, s.inside, s.place[o := p])
    ensures !p.InviteOf? && !p.DelayedAck? ==> Dialogs(s.dlgs, s.place[o := p])
    ensures !p.AckFor? ==> Acks(s.timerD.acked, s.timerD.stored, s.place[o := p])
    ensures Invites(s.timerD.added, s.timerD.ended, s.inside, s.place[o := p])
    ensures Counts(if p == Destroyed then s.destroyed + multiset{o} else s.destroyed, s.timerD.stored, s.place[o := p])
  {
    NewFacts(s, o);
    hide R.Inv, Requests, Dialogs, Acks, Invites, Counts;
    if p != Request { SetRequests(s.rips, s.inside, s.place, o, p); }
    if !p.InviteOf? && !p.DelayedAck? { SetDialogs(s.dlgs, s.place, o, p); }
    if !p.AckFor? { SetAcks(s.timerD.acked, s.timerD.stored, s.place, o, p); }
    SetInvites(s.timerD.added, s.timerD.ended, s.inside, s.place, o, p);
    SetCounts(s.destroyed, s.timerD.stored, s.place, o, p);
  }

  // ---------- each step keeps it ----------

  lemma DestroyNewKeeps(s: State, o: Orq)
    requires Inv(s) && o !in s.place
    ensures Inv(Destroy(s, o))
  {
    hide R.Inv, Requests, Dialogs, Acks, Invites, Counts;
    NewKeeps(s, o, Destroyed);
  }

  lemma RequestKeeps(s: State, o: Orq, id: DialogId)
    requires Inv(s) && o !in s.place
    ensures Inv(SendRequest(s, o, id))
  {
    hide R.Inv, Requests, Dialogs, Acks, Invites, Counts;
    NewKeeps(s, o, Request);
    NewFacts(s, o);
    AddRequest(s.rips, s.inside, s.place, o, id);
    InsideInvites(s.timerD.added, s.timerD.ended, s.inside, s.place[o := Request], o);
  }

  lemma AddRequest(rips: map<Orq, DialogId>, inside: set<Orq>, place: Places, o: Orq, id: DialogId)
    requires Requests(rips, inside, place) && o !in place
    ensures Requests(rips[o := id], inside + {o}, place[o := Request])
  {
  }

  lemma InsideInvites(added: set<Orq>, ended: set<Orq>, inside: set<Orq>, place: Places, o: Orq)
    requires Invites(added, ended, inside, place) && o !in added
    ensures Invites(added, ended, inside + {o}, place)
  {
  }

  lemma InviteKeeps(s: State, d: Dlg, o: Orq)
    requires Inv(s) && o !in s.place && d !in s.dlgs
    ensures Inv(SendInvite(s, d, o))
  {
    hide R.Inv, Requests, Dialogs, Acks, Invites, Counts;
    NewKeeps(s, o, InviteOf(d));
    AddDialog(s.dlgs, s.place, d, o);
  }

  lemma AddDialog(dlgs: map<Dlg, Own>, place: Places, d: Dlg, o: Orq)
    requires Dialogs(dlgs, place) && d !in dlgs && o !in place
    ensures Dialogs(dlgs[d := Own(Some(o), None)], place[o := InviteOf(d)])
  {
  }

  lemma ReceiveKeeps(s: State, d: Dlg)
    requires Inv(s) && d !in s.dlgs
    ensures Inv(Receive(s, d))
  {
    hide R.Inv, Requests, Acks, Invites, Counts;
    assert Dialogs(s.dlgs[d := Own(None, None)], s.place);
  }

  /** The delayed ACK of a dialog is forgotten or destroyed. */
  lemma UnsetAck(dlgs: map<Dlg, Own>, place: Places, d: Dlg, p: Place)
    requires Dialogs(dlgs, place) && d in dlgs && dlgs[d].ack.Some? && (p == Lost || p == Destroyed)
    ensures Dialogs(dlgs[d := dlgs[d].(ack := None)], place[dlgs[d].ack.value := p])
  {
  }

  lemma SetAck(dlgs: map<Dlg, Own>, place: Places, d: Dlg, o: Orq)
    requires Dialogs(dlgs, place) && d in dlgs && dlgs[d].ack.None? && o !in place
    ensures Dialogs(dlgs[d := dlgs[d].(ack := Some(o))], place[o := DelayedAck(d)])
  {
  }

  lemma DelayedFacts(s: State, d: Dlg)
    requires Inv(s) && d in s.dlgs && s.dlgs[d].ack.Some?
    ensures var o := s.dlgs[d].ack.value;
      At(s.place, o, DelayedAck(d)) && o !in s.rips && o !in s.inside && o !in s.timerD.stored && o !in s.timerD.added
  {
    hide R.Inv;
  }

  lemma ReleaseAckKeeps(s: State, d: Dlg, p: Place)
    requires Inv(s) && d in s.dlgs && s.dlgs[d].ack.Some? && (p == Lost || p == Destroyed)
    ensures
      var o := s.dlgs[d].ack.value;
      Inv(s.(dlgs := s.dlgs[d := s.dlgs[d].(ack := None)], place := s.place[o := p],
             destroyed := if p == Destroyed then s.destroyed + multiset{o} else s.destroyed))
  {
    hide R.Inv, Requests, Dialogs, Acks, Invites, Counts;
    var o := s.dlgs[d].ack.value;
    DelayedFacts(s, d);
    SetRequests(s.rips, s.inside, s.place, o, p);
    UnsetAck(s.dlgs, s.place, d, p);
    SetAcks(s.timerD.acked, s.timerD.stored, s.place, o, p);
    SetInvites(s.timerD.added, s.timerD.ended, s.inside, s.place, o, p);
    SetCounts(s.destroyed, s.timerD.stored, s.place, o, p);
  }

  lemma NewAckKeeps(s: State, d: Dlg, o: Orq)
    requires Inv(s) && d in s.dlgs && s.dlgs[d].ack.None? && o !in s.place
    ensures Inv(SendAck(s, d, o, Unresolved))
  {
    hide R.Inv, Requests, Dialogs, Acks, Invites, Counts;
    NewKeeps(s, o, DelayedAck(d));
    SetAck(s.dlgs, s.place, d, o);
  }

  lemma UnresolvedAckKeeps(s: State, d: Dlg, o: Orq)
    requires Inv(s) && d in s.dlgs && o !in s.place
    ensures Inv(SendAck(s, d, o, Unresolved))
  {
    hide Inv;
    var own := s.dlgs[d];
    if own.ack.Some? {
      ReleaseAckKeeps(s, d, Lost);
      var s1 := s.(dlgs := s.dlgs[d := own.(ack := None)], place := s.place[own.ack.value := Lost]);
      Distinct(s, d, o);
      NewAckKeeps(s1, d, o);
      assert SendAck(s1, d, o, Unresolved) == SendAck(s, d, o, Unresolved);
    } else {
      NewAckKeeps(s, d, o);
    }
  }

  lemma Distinct(s: State, d: Dlg, o: Orq)
    requires Inv(s) && d in s.dlgs && s.dlgs[d].ack.Some? && o !in s.place
    ensures o != s.dlgs[d].ack.value
  {
    hide R.Inv, Requests, Acks, Invites, Counts;
  }

  lemma GetTportKeeps(s: State, d: Dlg)
    requires Inv(s) && d in s.dlgs
    ensures Inv(GetTport(s, d))
  {
    hide Inv;
    if s.dlgs[d].ack.Some? {
      ReleaseAckKeeps(s, d, Destroyed);
    }
  }

  /** The ACK whose INVITE waits finds its place with timer D. */
  lemma StoreAck(acked: map<Orq, Orq>, stored: set<Orq>, place: Places, i: Orq, o: Orq)
    requires Acks(acked, stored, place) && i !in acked && o !in place
    ensures Acks(acked[i := o], stored + {o}, place[o := AckFor(i)])
  {
  }

  lemma StoreCounts(destroyed: multiset<Orq>, stored: set<Orq>, place: Places, o: Orq, i: Orq)
    requires Counts(destroyed, stored, place) && o !in place
    ensures Counts(destroyed, stored + {o}, place[o := AckFor(i)])
  {
  }

  lemma NotAcked(td: T.State, o: Orq)
    requires R.Inv(td) && T.Key(o) in td.pending
    ensures td.pending[T.Key(o)] !in td.acked
  {
    hide T.Key;
  }

  lemma DatagramAckKeeps(s: State, d: Dlg, o: Orq)
    requires Inv(s) && o !in s.place && d in s.dlgs
    ensures Inv(SendAck(s, d, o, Datagram))
  {
    hide T.Key, R.Inv, Requests, Dialogs, Acks, Invites, Counts;
    NewFacts(s, o);
    R.AddAckKeeps(s.timerD, o);
    if T.Key(o) in s.timerD.pending {
      var i := s.timerD.pending[T.Key(o)];
      NotAcked(s.timerD, o);
      NewKeeps(s, o, AckFor(i));
      StoreAck(s.timerD.acked, s.timerD.stored, s.place, i, o);
      StoreCounts(s.destroyed, s.timerD.stored, s.place, o, i);
    } else {
      NewKeeps(s, o, Lost);
    }
  }

  /** An INVITE is given to timer D: that of a dialog object, or a re-INVITE that has just been let go. */
  lemma AnsweredKeeps(s: State, o: Orq, dropped: bool)
    requires Inv(s) && o in s.place && (s.place[o].InviteOf? || (o in s.inside && s.place[o].Destroyed?))
    requires o !in s.timerD.acked
    ensures Inv(Answered(s, o, dropped))
  {
    hide T.Key, R.Inv, Dialogs, Acks, Counts;
    R.AddInviteKeeps(s.timerD, o, dropped);
    var td := T.AddInvite(s.timerD, o, dropped);
    assert Invites(td.added, td.ended, s.inside, s.place);
  }

  lemma RequestFacts(s: State, o: Orq)
    requires Inv(s) && o in s.rips
    ensures At(s.place, o, Request) && o !in s.timerD.stored && o !in s.timerD.added && o in s.place
  {
    hide R.Inv;
  }

  lemma DropRequest(rips: map<Orq, DialogId>, inside: set<Orq>, place: Places, o: Orq)
    requires Requests(rips, inside, place)
    ensures Requests(rips - {o}, inside, place[o := Destroyed])
  {
  }

  lemma ClearRipKeeps(s: State, o: Orq)
    requires Inv(s) && o in s.rips
    ensures Inv(ClearRip(s, o))
  {
    hide R.Inv, Requests, Dialogs, Acks, Invites, Counts;
    RequestFacts(s, o);
    DropRequest(s.rips, s.inside, s.place, o);
    SetDialogs(s.dlgs, s.place, o, Destroyed);
    SetAcks(s.timerD.acked, s.timerD.stored, s.place, o, Destroyed);
    SetInvites(s.timerD.added, s.timerD.ended, s.inside, s.place, o, Destroyed);
    SetCounts(s.destroyed, s.timerD.stored, s.place, o, Destroyed);
  }

  lemma InsideFact(s: State, o: Orq)
    requires Inv(s)
    ensures o in s.rips ==> o in s.place
    ensures o in s.inside && !At(s.place, o, Destroyed) ==> o in s.rips
  {
    hide R.Inv, Dialogs, Acks, Invites, Counts;
  }

  lemma InsideKeeps(s: State, o: Orq, answered: bool, dropped: bool)
    requires Inv(s) && o in s.rips && o in s.inside
    ensures Inv(ResponseInside(s, o, answered, dropped))
  {
    hide R.Inv, Requests, Dialogs, Acks, Invites, Counts;
    hide T.AddInvite;
    ClearRipKeeps(s, o);
    if answered {
      RequestFacts(s, o);
      R.NotAcked(s.timerD, o);
      AnsweredKeeps(ClearRip(s, o), o, dropped);
      assert Answered(ClearRip(s, o), o, dropped) == ResponseInside(s, o, answered, dropped);
    }
  }

  lemma DropAck(acked: map<Orq, Orq>, stored: set<Orq>, place: Places, i: Orq)
    requires Acks(acked, stored, place) && i in acked
    ensures Acks(acked - {i}, stored, place[acked[i] := Destroyed])
  {
  }

  lemma DropCounts(destroyed: multiset<Orq>, stored: set<Orq>, place: Places, a: Orq)
    requires Counts(destroyed, stored, place) && a in stored
    ensures Counts(destroyed, stored, place[a := Destroyed])
  {
  }

  lemma EndInvites(added: set<Orq>, ended: set<Orq>, inside: set<Orq>, place: Places, o: Orq)
    requires Invites(added, ended, inside, place)
    ensures Invites(added, ended + {o}, inside, place)
  {
  }

  lemma AckFacts(s: State, i: Orq)
    requires Inv(s) && i in s.timerD.acked
    ensures var a := s.timerD.acked[i];
      At(s.place, a, AckFor(i)) && a !in s.rips && a !in s.inside && a in s.timerD.stored && a !in s.timerD.added
  {
    hide R.Inv;
  }

  lemma ForgetKeeps(s: State, o: Orq, td: T.State)
    requires Inv(s) && R.Inv(td) && td == T.End(s.timerD, o).(timers := td.timers, cleared := td.cleared)
    ensures Inv(Forget(s, o, td))
  {
    hide R.Inv, Requests, Dialogs, Acks, Invites, Counts;
    hide T.Key;
    EndInvites(s.timerD.added, s.timerD.ended, s.inside, s.place, o);
    if T.Key(o) !in s.timerD.pending && o in s.timerD.acked {
      var a := s.timerD.acked[o];
      AckFacts(s, o);
      SetRequests(s.rips, s.inside, s.place, a, Destroyed);
      SetDialogs(s.dlgs, s.place, a, Destroyed);
      DropAck(s.timerD.acked, s.timerD.stored, s.place, o);
      SetInvites(s.timerD.added, s.timerD.ended + {o}, s.inside, s.place, a, Destroyed);
      DropCounts(s.destroyed, s.timerD.stored, s.place, a);
    }
  }

  lemma TimerDKeeps(s: State, o: Orq)
    requires Inv(s) && o in s.timerD.timers
    ensures Inv(TimerFires(s, o))
  {
    hide R.Inv, Requests, Dialogs, Acks, Invites, Counts;
    R.FiresKeeps(s.timerD, o);
    ForgetKeeps(s, o, T.TimerFires(s.timerD, o));
  }

  lemma StopTimerDKeeps(s: State, o: Orq)
    requires Inv(s)
    ensures Inv(StopTimerD(s, o)) && StopTimerD(s, o).dlgs == s.dlgs && o in StopTimerD(s, o).timerD.ended
  {
    hide R.Inv, Requests, Dialogs, Acks, Invites, Counts;
    R.ClearsKeeps(s.timerD, o);
    ForgetKeeps(s, o, T.ClearTimerD(s.timerD, o).0);
  }

  lemma DropDialog(dlgs: map<Dlg, Own>, place: Places, d: Dlg)
    requires Dialogs(dlgs, place) && d in dlgs && dlgs[d].ack.None?
    ensures dlgs[d].invite.Some? ==> Dialogs(dlgs - {d}, place[dlgs[d].invite.value := Destroyed])
    ensures dlgs[d].invite.None? ==> Dialogs(dlgs - {d}, place)
  {
  }

  lemma InviteFacts(s: State, d: Dlg)
    requires Inv(s) && d in s.dlgs && s.dlgs[d].invite.Some?
    ensures var o := s.dlgs[d].invite.value;
      At(s.place, o, InviteOf(d)) && o !in s.rips && o !in s.inside && o !in s.timerD.stored
  {
    hide R.Inv;
  }

  /** What is left to do once timer D no longer holds the INVITE and the delayed ACK is gone. */
  lemma ReleaseInviteKeeps(s: State, d: Dlg)
    requires Inv(s) && d in s.dlgs && s.dlgs[d].ack.None?
    requires s.dlgs[d].invite.Some? ==> s.dlgs[d].invite.value in s.timerD.ended
    ensures Inv(DestroyIfAny(s, s.dlgs[d].invite).(dlgs := s.dlgs - {d}))
  {
    hide R.Inv, Requests, Dialogs, Acks, Invites, Counts;
    DropDialog(s.dlgs, s.place, d);
    if s.dlgs[d].invite.Some? {
      var o := s.dlgs[d].invite.value;
      InviteFacts(s, d);
      SetRequests(s.rips, s.inside, s.place, o, Destroyed);
      SetAcks(s.timerD.acked, s.timerD.stored, s.place, o, Destroyed);
      SetInvites(s.timerD.added, s.timerD.ended, s.inside, s.place, o, Destroyed);
      SetCounts(s.destroyed, s.timerD.stored, s.place, o, Destroyed);
    }
  }

  lemma DestroyDialogKeeps(s: State, d: Dlg)
    requires Inv(s) && d in s.dlgs
    ensures Inv(DestroyDialog(s, d))
  {
    hide Inv, StopTimerD;
    var own := s.dlgs[d];
    if own.invite.Some? {
      StopTimerDKeeps(s, own.invite.value);
    }
    var s1 := if own.invite.Some? then StopTimerD(s, own.invite.value) else s;
    var s2 := GetTport(s1, d);
    GetTportKeeps(s1, d);
    ReleaseInviteKeeps(s2, d);
    assert s2.dlgs - {d} == s.dlgs - {d};
  }

  lemma StepKeeps(s: State, e: Event)
    requires Inv(s) && Enabled(s, e)
    ensures Inv(Step(s, e))
  {
    hide Inv;
    hide SendInvite, Receive, SendRequest, SendAck, GetTport, Answered, ResponseInside, ClearRip, DestroyDialog;
    hide TimerFires;
    match e
    case AppInvites(d, o) => InviteKeeps(s, d, o);
    case InviteArrives(d) => ReceiveKeeps(s, d);
    case AppRequests(o, id) => RequestKeeps(s, o, id);
    case AppAcks(d, o, route) => AckKeeps(s, d, o, route);
    case TportKnown(d) => GetTportKeeps(s, d);
    case ServerSends(o) => DestroyNewKeeps(s, o);
    case InviteAnswered(o, dropped) =>
      assert o !in s.timerD.acked;
      AnsweredKeeps(s, o, dropped);
    case InsideResponse(o, answered, dropped) =>
      InsideFact(s, o);
      InsideKeeps(s, o, answered, dropped);
    case OutsideResponse(o, _) =>
      InsideFact(s, o);
      ClearRipKeeps(s, o);
    case RefreshResponse(o, _) =>
      InsideFact(s, o);
      ClearRipKeeps(s, o);
    case ByeMeetsReinvite(o) => if o in s.rips { ClearRipKeeps(s, o); }
    case AppByes(_, o) => if o.Some? { ClearRipKeeps(s, o.value); }
    case TimerD(o) => TimerDKeeps(s, o);
    case DestructorRuns(d) => DestroyDialogKeeps(s, d);
  }

  lemma AckKeeps(s: State, d: Dlg, o: Orq, route: Route)
    requires Inv(s) && o !in s.place && d in s.dlgs
    ensures Inv(SendAck(s, d, o, route))
  {
    hide Inv;
    match route
    case Datagram => DatagramAckKeeps(s, d, o);
    case Stream => DestroyNewKeeps(s, o);
    case Unresolved => UnresolvedAckKeeps(s, d, o);
  }

  lemma NothingKeeps()
    ensures Inv(NOTHING)
  {
  }

  lemma {:induction false} EveryRun(ss: seq<State>, es: seq<Event>, i: nat)
    requires IsRun(ss, es) && i < |ss|
    ensures Inv(ss[i])
  {
    hide Inv, Step, Enabled;
    if i == 0 {
      NothingKeeps();
    } else {
      EveryRun(ss, es, i - 1);
      StepKeeps(ss[i - 1], es[i - 1]);
    }
  }

  // ---------- which events destroy what ----------

  /** Timer D gives up the ACK of this INVITE. */
  predicate GivesUp(s: State, invite: Orq, o: Orq) {
    T.Key(invite) !in s.timerD.pending && invite in s.timerD.acked && s.timerD.acked[invite] == o
  }

  /** The events that destroy a transaction: its own last response (any response to a request in a dialog, a
      final one to other requests), a BYE that takes its place, an ACK that has gone out over a stream or
      whose transport has become known, the INVITE or delayed ACK of a dialog object that goes, and for the
      ACK of an INVITE, timer D or clearTimerD for that INVITE. */
  predicate Destroys(s: State, e: Event, o: Orq) {
    match e
    case AppInvites(_, _) => false
    case InviteArrives(_) => false
    case AppRequests(_, _) => false
    case AppAcks(_, a, route) => a == o && route == Stream
    case TportKnown(d) => d in s.dlgs && s.dlgs[d].ack == Some(o)
    case ServerSends(a) => a == o
    case InviteAnswered(_, _) => false
    case InsideResponse(a, _, _) => a == o
    case OutsideResponse(a, status) => a == o && status >= 200
    case RefreshResponse(a, outcome) => a == o && (outcome.None? || outcome.value >= 200)
    case ByeMeetsReinvite(a) => a == o && o in s.rips
    case AppByes(_, victim) => victim == Some(o)
    case TimerD(i) => GivesUp(s, i, o)
    case DestructorRuns(d) => d in s.dlgs && GoesWith(s, d, o)
  }

  /** With the dialog object go its INVITE, the delayed ACK and the ACK that timer D has for its INVITE. */
  predicate GoesWith(s: State, d: Dlg, o: Orq)
    requires d in s.dlgs
  {
    var own := s.dlgs[d];
    own.invite == Some(o) || own.ack == Some(o) || (own.invite.Some? && GivesUp(s, own.invite.value, o))
  }

  /** In every reachable state: an event destroys a transaction, once, exactly if it is one of those. */
  lemma DestroysExactly(s: State, e: Event, o: Orq)
    requires Inv(s) && Enabled(s, e)
    ensures Total(Step(s, e))[o] == Total(s)[o] + if Destroys(s, e, o) then 1 else 0
  {
    hide Inv, T.Key, T.AddInvite, T.AddAck, T.End, T.TimerFires, T.ClearTimerD, T.Resend;
    hide DestroyDialog, Forget, SendAck, GoesWith, GivesUp, TimerFires;
    hide ResponseInside, ResponseOutside, ResponseToRefresh, Total, SendInvite, Receive, SendRequest, GetTport, Destroy;
    hide Answered, ClearRip, ClearByDialog;
    match e
    case AppAcks(d, a, route) => AckDestroys(s, d, a, route);
    case InviteAnswered(a, dropped) => AddDestroys(s, a, dropped);
    case InsideResponse(a, answered, dropped) =>
      InsideFact(s, a);
      InsideDestroys(s, a, answered, dropped);
    case OutsideResponse(a, status) =>
      InsideFact(s, a);
      OutsideDestroys(s, a, status);
    case RefreshResponse(a, outcome) =>
      InsideFact(s, a);
      RefreshDestroys(s, a, outcome);
    case TimerD(i) => TimerDestroys(s, i, o);
    case DestructorRuns(d) => DestructorDestroys(s, d, o);
    case AppInvites(d, a) => SentDestroysNone(s, d, a, 0);
    case InviteArrives(d) => SentDestroysNone(s, d, T.Orq(0, "", 0), 0);
    case AppRequests(a, id) => SentDestroysNone(s, 0, a, id);
    case TportKnown(d) => KnownDestroys(s, d);
    case ServerSends(a) => DestroyDestroys(s, a);
    case ByeMeetsReinvite(a) => DestroyDestroys(s, a);
    case AppByes(_, victim) => VictimDestroyed(s, victim);
  }

  lemma SentDestroysNone(s: State, d: Dlg, a: Orq, id: DialogId)
    ensures Total(SendInvite(s, d, a)) == Total(Receive(s, d)) == Total(SendRequest(s, a, id)) == Total(s)
  {
  }

  lemma DestroyDestroys(s: State, a: Orq)
    ensures Total(Destroy(s, a)) == Total(ClearRip(s, a)) == Total(s) + multiset{a}
  {
  }

  lemma VictimDestroyed(s: State, victim: Option<Orq>)
    ensures Total(ClearByDialog(s, victim)) == if victim.Some? then Total(s) + multiset{victim.value} else Total(s)
  {
    if victim.Some? {
      DestroyDestroys(s, victim.value);
    }
  }

  lemma KnownDestroys(s: State, d: Dlg)
    requires d in s.dlgs
    ensures Total(GetTport(s, d)) ==
      if s.dlgs[d].ack.Some? then Total(s) + multiset{s.dlgs[d].ack.value} else Total(s)
  {
  }

  lemma AddDestroys(s: State, a: Orq, dropped: bool)
    ensures Total(Answered(s, a, dropped)) == Total(s)
  {
    AddDestroysNone(s.timerD, a, dropped);
    hide T.AddInvite;
  }

  lemma InsideDestroys(s: State, a: Orq, answered: bool, dropped: bool)
    ensures Total(ResponseInside(s, a, answered, dropped)) == Total(s) + multiset{a}
  {
    AddDestroysNone(s.timerD, a, dropped);
    hide T.AddInvite;
  }

  lemma OutsideDestroys(s: State, a: Orq, status: nat)
    requires a in s.rips
    ensures Total(ResponseOutside(s, a, status)) == if status >= 200 then Total(s) + multiset{a} else Total(s)
  {
  }

  lemma RefreshDestroys(s: State, a: Orq, outcome: Option<nat>)
    requires a in s.rips
    ensures Total(ResponseToRefresh(s, a, outcome))
            == if outcome.None? || outcome.value >= 200 then Total(s) + multiset{a} else Total(s)
  {
  }

  lemma AddDestroysNone(td: T.State, o: Orq, dropped: bool)
    ensures T.AddInvite(td, o, dropped).destroyed == td.destroyed
  {
    hide T.Key;
  }

  lemma AckDestroys(s: State, d: Dlg, a: Orq, route: Route)
    requires d in s.dlgs
    ensures Total(SendAck(s, d, a, route)) == if route == Stream then Total(s) + multiset{a} else Total(s)
  {
    hide T.Key;
  }

  lemma EndDestroys(td: T.State, i: Orq)
    ensures T.End(td, i).destroyed ==
      if T.Key(i) !in td.pending && i in td.acked then td.destroyed + multiset{td.acked[i]} else td.destroyed
  {
    hide T.Key;
  }

  lemma TimerDestroys(s: State, i: Orq, o: Orq)
    ensures Total(TimerFires(s, i))[o] == Total(s)[o] + if GivesUp(s, i, o) then 1 else 0
    ensures Total(StopTimerD(s, i))[o] == Total(s)[o] + if GivesUp(s, i, o) then 1 else 0
  {
    EndDestroys(s.timerD.(timers := s.timerD.timers - multiset{i}), i);
    EndDestroys(s.timerD.(cleared := s.timerD.cleared + {i}), i);
    hide T.Key, T.End;
  }

  lemma DestructorDestroys(s: State, d: Dlg, o: Orq)
    requires Inv(s) && d in s.dlgs
    ensures Total(DestroyDialog(s, d))[o] == Total(s)[o] + if GoesWith(s, d, o) then 1 else 0
  {
    hide Inv, StopTimerD, GivesUp, DestroyIfAny, Total;
    OwnPlaces(s, d, o);
    var own := s.dlgs[d];
    if own.invite.Some? {
      TimerDestroys(s, own.invite.value, o);
    }
    var s1 := if own.invite.Some? then StopTimerD(s, own.invite.value) else s;
    AnyDestroys(s1, own.ack, o);
    AnyDestroys(DestroyIfAny(s1, own.ack), own.invite, o);
    var s2 := DestroyIfAny(DestroyIfAny(s1, own.ack), own.invite);
    SameTotal(s2, s.dlgs - {d});
  }

  lemma SameTotal(s: State, dlgs: map<Dlg, Own>)
    ensures Total(s.(dlgs := dlgs)) == Total(s)
  {
  }

  lemma AnyDestroys(s: State, a: Option<Orq>, o: Orq)
    ensures Total(DestroyIfAny(s, a))[o] == Total(s)[o] + if a == Some(o) then 1 else 0
  {
  }

  /** The INVITE and the delayed ACK of a dialog and an ACK with timer D are different transactions. */
  lemma OwnPlaces(s: State, d: Dlg, o: Orq)
    requires Inv(s) && d in s.dlgs
    ensures var own := s.dlgs[d];
      && !(own.invite == Some(o) && own.ack == Some(o))
      && (own.invite.Some? && GivesUp(s, own.invite.value, o) ==> own.invite != Some(o) && own.ack != Some(o))
  {
    hide R.Inv, T.Key, Requests, Invites, Counts;
  }

  // ---------- timer D's part ----------

  /** What an event is to timer D. */
  function PartOf(s: State, e: Event): Option<R.Event> {
    match e
    case AppAcks(_, o, Datagram) => Some(R.Acked(o))
    case InviteAnswered(o, dropped) => Some(R.Answered(o, dropped))
    case InsideResponse(o, true, dropped) => Some(R.Reinvited(o, dropped))
    case TimerD(o) => Some(R.Fires(o))
    case DestructorRuns(d) =>
      if d in s.dlgs && s.dlgs[d].invite.Some? then Some(R.Clears(s.dlgs[d].invite.value)) else None
    case _ => None
  }

  /** An INVITE that was given to clearTimerD has been destroyed. */
  ghost predicate Gone(s: State) { forall o :: o in s.timerD.cleared ==> At(s.place, o, Destroyed) }

  lemma StaysDestroyed(s: State, e: Event, o: Orq)
    requires Inv(s) && Enabled(s, e) && At(s.place, o, Destroyed)
    ensures At(Step(s, e).place, o, Destroyed)
  {
    hide Inv, SendAck, Forget, DestroyDialog, T.Key, T.AddAck, T.AddInvite, T.End, T.Resend;
    match e
    case AppAcks(d, a, route) => AckDestroysNone(s, d, a, route, o);
    case TimerD(i) => ForgetStays(s, i, T.TimerFires(s.timerD, i), o);
    case DestructorRuns(d) => DestroyDialogStays(s, d, o);
    case _ =>
  }

  lemma AckDestroysNone(s: State, d: Dlg, a: Orq, route: Route, o: Orq)
    requires Inv(s) && a !in s.place && d in s.dlgs && At(s.place, o, Destroyed)
    ensures At(SendAck(s, d, a, route).place, o, Destroyed)
  {
    hide R.Inv, T.Key, T.AddAck, Requests, Acks, Invites, Counts;
  }

  lemma ForgetStays(s: State, i: Orq, td: T.State, o: Orq)
    requires At(s.place, o, Destroyed)
    ensures At(Forget(s, i, td).place, o, Destroyed)
  {
    hide T.Key;
  }

  lemma DestroyDialogStays(s: State, d: Dlg, o: Orq)
    requires d in s.dlgs && At(s.place, o, Destroyed)
    ensures At(DestroyDialog(s, d).place, o, Destroyed)
  {
    hide Forget, T.ClearTimerD;
    var own := s.dlgs[d];
    if own.invite.Some? {
      ForgetStays(s, own.invite.value, T.ClearTimerD(s.timerD, own.invite.value).0, o);
    }
  }

  lemma ClearedByDestructor(s: State, e: Event)
    requires Enabled(s, e)
    ensures forall o :: o in Step(s, e).timerD.cleared ==>
      o in s.timerD.cleared || At(Step(s, e).place, o, Destroyed)
  {
    hide T.Key, T.AddAck, T.AddInvite, T.End, T.TimerFires, T.Resend, DestroyDialog;
    TimerDClears(s.timerD);
    if e.DestructorRuns? {
      DestructorClears(s, e.d);
    }
  }

  lemma TimerDClears(td: T.State)
    ensures forall o, dropped :: T.AddInvite(td, o, dropped).cleared == td.cleared
    ensures forall o :: T.AddAck(td, o).cleared == td.cleared && T.TimerFires(td, o).cleared == td.cleared
  {
    hide T.Key;
  }

  lemma DestructorClears(s: State, d: Dlg)
    requires d in s.dlgs
    ensures forall o :: o in DestroyDialog(s, d).timerD.cleared ==>
      o in s.timerD.cleared || At(DestroyDialog(s, d).place, o, Destroyed)
  {
    hide T.Key;
  }

  lemma GoneKeeps(s: State, e: Event)
    requires Inv(s) && Gone(s) && Enabled(s, e)
    ensures Gone(Step(s, e))
  {
    hide Inv, Step, Enabled, At;
    ClearedByDestructor(s, e);
    forall o | o in s.timerD.cleared
      ensures At(Step(s, e).place, o, Destroyed)
    {
      StaysDestroyed(s, e, o);
    }
  }

  /** An event is to timer D one that its own runs allow, or nothing. */
  lemma TimerDTakesPart(s: State, e: Event)
    requires Inv(s) && Gone(s) && Enabled(s, e)
    ensures match PartOf(s, e)
      case Some(te) => R.Enabled(s.timerD, te) && Step(s, e).timerD == R.Step(s.timerD, te)
      case None => Step(s, e).timerD == s.timerD
  {
    hide R.Inv, T.Key, T.AddAck, T.AddInvite, T.End, T.Resend, Requests, Dialogs, Acks, Invites, Counts;
    match e
    case AppAcks(_, o, _) => NewFacts(s, o);
    case InsideResponse(o, _, _) =>
      InsideFact(s, o);
      RequestFacts(s, o);
    case _ =>
  }

  /** So what is proved of timer D's runs holds on every run here. */
  lemma {:induction false} TimerDRun(ss: seq<State>, es: seq<Event>, i: nat)
    returns (ts: seq<T.State>, tes: seq<R.Event>)
    requires IsRun(ss, es) && i < |ss|
    ensures R.IsRun(ts, tes) && ts[|tes|] == ss[i].timerD && Gone(ss[i])
  {
    hide Inv, Step, Enabled, PartOf, Gone, R.Enabled, R.Step;
    if i == 0 {
      ts, tes := [T.START], [];
      NothingGone();
    } else {
      ts, tes := TimerDRun(ss, es, i - 1);
      EveryRun(ss, es, i - 1);
      GoneKeeps(ss[i - 1], es[i - 1]);
      TimerDTakesPart(ss[i - 1], es[i - 1]);
      var part := PartOf(ss[i - 1], es[i - 1]);
      if part.Some? {
        R.Extended(ts, tes, part.value);
        ts, tes := ts + [R.Step(ts[|tes|], part.value)], tes + [part.value];
      }
    }
  }

  lemma NothingGone()
    ensures Gone(NOTHING)
  {
  }

  // ---------- what it means ----------

  /** No outgoing transaction is destroyed twice, and one that a request in progress, a dialog object or
      timer D's table of ACKs still refers to has not been destroyed. */
  lemma DestroyedAtMostOnce(ss: seq<State>, es: seq<Event>, i: nat, o: Orq)
    requires IsRun(ss, es) && i < |ss|
    ensures Total(ss[i])[o] <= 1 && (Total(ss[i])[o] == 1 <==> At(ss[i].place, o, Destroyed))
    ensures o in ss[i].rips || o in ss[i].timerD.acked.Values ==> Total(ss[i])[o] == 0
    ensures forall d :: d in ss[i].dlgs && Some(o) in [ss[i].dlgs[d].invite, ss[i].dlgs[d].ack] ==>
      Total(ss[i])[o] == 0
  {
    EveryRun(ss, es, i);
  }

  /** What a place says of the tables. */
  predicate HeldAt(s: State, o: Orq, p: Place) {
    match p
    case Request => o in s.rips
    case InviteOf(d) => d in s.dlgs && s.dlgs[d].invite == Some(o)
    case DelayedAck(d) => d in s.dlgs && s.dlgs[d].ack == Some(o)
    case AckFor(i) => i in s.timerD.acked && s.timerD.acked[i] == o
    case Lost => false
    case Destroyed => false
  }

  /** Nothing is held twice: a transaction is held in one place only, and one that is held nowhere has been
      destroyed, or the last pointer to it was lost. */
  lemma OneHolder(ss: seq<State>, es: seq<Event>, i: nat, o: Orq)
    requires IsRun(ss, es) && i < |ss| && o in ss[i].place
    ensures forall p :: HeldAt(ss[i], o, p) <==> ss[i].place[o] == p && p != Lost && p != Destroyed
  {
    EveryRun(ss, es, i);
    Holder(ss[i], o);
  }

  lemma Holder(s: State, o: Orq)
    requires Inv(s) && o in s.place
    ensures forall p :: HeldAt(s, o, p) <==> s.place[o] == p && p != Lost && p != Destroyed
  {
    hide R.Inv, Invites, Counts;
    forall p
      ensures HeldAt(s, o, p) <==> s.place[o] == p && p != Lost && p != Destroyed
    {
      match p
      case Request =>
      case InviteOf(d) =>
      case DelayedAck(d) =>
      case AckFor(i) =>
      case Lost =>
      case Destroyed =>
    }
  }

  /** The two ways to lose a transaction: an ACK over a datagram transport whose INVITE is not waiting for
      one, and a delayed ACK that another takes the place of. */
  predicate Loses(s: State, e: Event, o: Orq) {
    && e.AppAcks?
    && ((e.route == Datagram && e.o == o && T.Key(o) !in s.timerD.pending)
        || (e.route == Unresolved && e.d in s.dlgs && s.dlgs[e.d].ack == Some(o)))
  }

  lemma AckLoses(s: State, e: Event, o: Orq)
    requires Inv(s) && Enabled(s, e) && e.AppAcks?
    ensures At(Step(s, e).place, o, Lost) <==> At(s.place, o, Lost) || Loses(s, e, o)
  {
    hide R.Inv, T.Key, Requests, Acks, Invites, Counts;
  }

  lemma RequestLoses(s: State, e: Event, o: Orq)
    requires Inv(s) && Enabled(s, e)
    requires e.InsideResponse? || e.OutsideResponse? || e.RefreshResponse? || e.ByeMeetsReinvite? || e.AppByes?
    ensures At(Step(s, e).place, o, Lost) <==> At(s.place, o, Lost)
  {
    hide R.Inv, T.Key, Dialogs, Acks, Invites, Counts;
  }

  lemma ForgetLoses(s: State, i: Orq, td: T.State, o: Orq)
    requires Inv(s)
    ensures At(Forget(s, i, td).place, o, Lost) <==> At(s.place, o, Lost)
  {
    hide R.Inv, T.Key, Requests, Dialogs, Invites, Counts;
  }

  lemma DestroyDialogLoses(s: State, d: Dlg, o: Orq)
    requires Inv(s) && d in s.dlgs
    ensures At(DestroyDialog(s, d).place, o, Lost) <==> At(s.place, o, Lost)
  {
    hide R.Inv, T.Key, T.ClearTimerD, Forget, Requests, Acks, Invites, Counts;
    var own := s.dlgs[d];
    if own.invite.Some? {
      ForgetLoses(s, own.invite.value, T.ClearTimerD(s.timerD, own.invite.value).0, o);
    }
  }

  lemma OtherLoses(s: State, e: Event, o: Orq)
    requires Inv(s) && Enabled(s, e)
    requires e.AppInvites? || e.InviteArrives? || e.AppRequests? || e.TportKnown? || e.ServerSends?
          || e.InviteAnswered?
    ensures At(Step(s, e).place, o, Lost) <==> At(s.place, o, Lost)
  {
    hide R.Inv, R.Enabled, T.Key, Requests, Acks, Invites, Counts;
  }

  lemma StepLoses(s: State, e: Event, o: Orq)
    requires Inv(s) && Enabled(s, e)
    ensures At(Step(s, e).place, o, Lost) <==> At(s.place, o, Lost) || Loses(s, e, o)
  {
    hide Inv, At, TimerFires, DestroyDialog;
    if e.AppAcks? {
      hide Step, Loses;
      AckLoses(s, e, o);
    } else if e.TimerD? {
      TimerLoses(s, e.o, o);
    } else if e.DestructorRuns? {
      DestroyDialogLoses(s, e.d, o);
    } else if e.InsideResponse? || e.OutsideResponse? || e.RefreshResponse? || e.ByeMeetsReinvite? || e.AppByes? {
      RequestLoses(s, e, o);
    } else {
      OtherLoses(s, e, o);
    }
  }

  lemma TimerLoses(s: State, i: Orq, o: Orq)
    requires Inv(s)
    ensures At(TimerFires(s, i).place, o, Lost) <==> At(s.place, o, Lost)
  {
    hide Inv, Forget, At, T.TimerFires;
    ForgetLoses(s, i, T.TimerFires(s.timerD, i), o);
  }

  lemma {:induction false} LostExactly(ss: seq<State>, es: seq<Event>, i: nat, o: Orq)
    requires IsRun(ss, es) && i < |ss|
    ensures At(ss[i].place, o, Lost) <==> exists j :: 0 <= j < i && Loses(ss[j], es[j], o)
  {
    hide Inv, Step, Enabled, Loses;
    if i > 0 {
      LostExactly(ss, es, i - 1, o);
      EveryRun(ss, es, i - 1);
      StepLoses(ss[i - 1], es[i - 1], o);
    }
  }

  /** Once no request is in progress, no dialog object is left and timer D holds no ACK, every transaction ever
      created has been destroyed, except exactly the ACKs that were lost. */
  lemma NothingLeftButLost(ss: seq<State>, es: seq<Event>, i: nat, o: Orq)
    requires IsRun(ss, es) && i < |ss| && o in ss[i].place
    requires ss[i].rips == map[] && ss[i].dlgs == map[] && ss[i].timerD.acked == map[]
    ensures Total(ss[i])[o] == 1 <==> !exists j :: 0 <= j < i && Loses(ss[j], es[j], o)
  {
    hide Loses, Total;
    OneHolder(ss, es, i, o);
    LostExactly(ss, es, i, o);
    DestroyedAtMostOnce(ss, es, i, o);
    assert !HeldAt(ss[i], o, ss[i].place[o]);
  }

  /** Timer D has the INVITE in one of its tables. */
  predicate Holds(td: T.State, o: Orq) { o in td.acked || (T.Key(o) in td.pending && td.pending[T.Key(o)] == o) }

  /** Timer D keeps INVITEs by pointer. One that it holds has been destroyed exactly if no dialog object has it:
      that is so exactly if it was sent inside a dialog, where the table of requests in progress lets it go
      with its response, unless it was stranded. */
  lemma HeldInviteDestroyed(ss: seq<State>, es: seq<Event>, i: nat, o: Orq)
    requires IsRun(ss, es) && i < |ss| && Holds(ss[i].timerD, o)
    ensures Total(ss[i])[o] == 1 <==> !exists d :: d in ss[i].dlgs && ss[i].dlgs[d].invite == Some(o)
    ensures o !in ss[i].timerD.stranded ==> (Total(ss[i])[o] == 1 <==> o in ss[i].inside)
  {
    EveryRun(ss, es, i);
    DestroyedAtMostOnce(ss, es, i, o);
    HeldFacts(ss[i].timerD, o);
    hide R.Inv, T.Key, Acks, Counts;
    if !At(ss[i].place, o, Destroyed) {
      var d := ss[i].place[o].dlg;
      assert d in ss[i].dlgs && ss[i].dlgs[d].invite == Some(o);
    }
  }

  lemma HeldFacts(td: T.State, o: Orq)
    requires R.Inv(td) && Holds(td, o)
    ensures o in td.added && (o !in td.stranded ==> o !in td.ended)
  {
    hide T.Key;
  }

  /** The assertion in addInvite, where a re-INVITE is given to timer D with no check before: it fails exactly
      if another INVITE waits under the same key. */
  lemma ReinviteAssertion(s: State, o: Orq, dropped: bool)
    requires Inv(s) && Enabled(s, InsideResponse(o, true, dropped))
    ensures !T.AssertHolds(s.timerD, o) <==>
      exists p :: p in s.timerD.added && p != o && T.Key(p) == T.Key(o) && Holds(s.timerD, p) && p !in s.timerD.acked
  {
    InsideFact(s, o);
    RequestFacts(s, o);
    hide T.Key, Requests, Dialogs, Acks, Invites, Counts;
    if !T.AssertHolds(s.timerD, o) {
      var p := s.timerD.pending[T.Key(o)];
      assert p in s.timerD.added && T.Key(p) == T.Key(o) && Holds(s.timerD, p);
    }
  }

  /** A response to a request inside a dialog always finds its request, and it is the last one to: even a
      provisional one destroys the transaction. Only a refreshing re-INVITE outlives its provisional
      responses. */
  lemma AnyResponseIsTheLast(s: State, o: Orq, answered: bool, dropped: bool, status: nat)
    requires Inv(s) && Enabled(s, InsideResponse(o, answered, dropped))
    ensures o in s.rips && o !in ResponseInside(s, o, answered, dropped).rips
    ensures !Enabled(ResponseInside(s, o, answered, dropped), InsideResponse(o, answered, dropped))
    ensures status < 200 ==> ResponseToRefresh(s, o, Some(status)) == s
  {
    hide R.Inv, T.Key, Dialogs, Acks, Invites, Counts;
  }
}
