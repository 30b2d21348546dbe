/** What every client transaction keeps: which timers are queued in which state, each at most once, and
    what final response is stored (src/sip-proxy-controller.cpp). */
module ProxyTimers {
  import opened Wrappers
  import opened ProxyTransactions

  /** One entry is queued exactly if the handle is set and its add was not lost. */
  predicate Single(h: Handle) { h.queued == if h.held && !h.lost then 1 else 0 }

  /** Only timer K may be queued more than once: a late provisional response leads from completed to
      proceeding and back. */
  predicate Once(c: Client) {
    && Single(c.timerA) && Single(c.timerB) && Single(c.timerC) && Single(c.timerD) && Single(c.provisional)
    && Single(c.timerE) && Single(c.timerF) && (c.timerK.held && !c.timerK.lost ==> c.timerK.queued > 0)
  }

  predicate Placed(c: Client) {
    && (c.timerA.held || c.provisional.held ==> c.state == Calling)
    && (c.timerB.held <==> c.state == Calling)
    && (c.timerC.held ==> c.state == Calling || c.state == Proceeding)
    && (c.state == Calling ==> c.timerC.held)
    && (c.timerE.held ==> c.state == Trying)
    && (c.timerF.held ==> c.state == Trying || c.state == Proceeding)
    && (c.state == Trying ==> c.timerF.held)
    && (c.state == Completed ==> c.timerD.held || c.timerK.held)
    && (c.timerK.held ==> c.state == Completed || c.state == Proceeding)
  }

  predicate NoInviteTimers(c: Client) {
    !c.timerA.held && !c.timerB.held && !c.timerC.held && !c.timerD.held && !c.provisional.held
  }

  predicate NoOtherTimers(c: Client) { !c.timerE.held && !c.timerF.held && !c.timerK.held && c.timerK.queued == 0 }

  /** The machine for INVITE and the one for other requests share neither states nor timers. */
  predicate Machine(c: Client) {
    && (c.transmitCount == 0 <==> c.sipMethod == Unknown)
    && match c.sipMethod
       case Unknown => (c.state == NotStarted || c.state == Terminated) && NoInviteTimers(c) && NoOtherTimers(c)
       case Invite => c.state != NotStarted && c.state != Trying && NoOtherTimers(c)
       case Other => c.state != NotStarted && c.state != Calling && NoInviteTimers(c)
  }

  predicate Stored(final: Option<Response>, status: int) {
    final.Some? && final.value.status == status
  }

  predicate Answered(c: Client) {
    && (c.state == NotStarted || c.state == Calling || c.state == Trying ==> c.status == 0)
    && (c.state == Completed ==>
          || (c.status == 0 && c.sipMethod == Invite)
          || (200 <= c.status <= 299 && c.sipMethod == Other)
          || (c.status >= 300 && Stored(c.final, c.status)))
  }

  /** When timers D and K find the state they assert: D exactly if no late response has led back from
      completed, K exactly if in addition no other entry of K has fired and cleared the handle. */
  predicate Stale(c: Client) {
    && (c.timerD.queued > 0 ==> (c.state != Completed <==> c.late))
    && (c.timerK.queued > 0 ==> (c.state != Completed <==> c.late || !c.timerK.held))
  }

  predicate Inv(c: Client) {
    Once(c) && Placed(c) && Machine(c) && Answered(c) && Stale(c)
  }

  /** What every run keeps, whatever a send does: a retransmission that fails in the send sets timer A or E
      in a transaction that has just terminated, and all else is right there too. */
  predicate Sound(c: Client) {
    if c.state == Terminated then
      && Inv(c.(timerA := NULL, timerE := NULL)) && Single(c.timerA) && Single(c.timerE)
      && (c.timerA.held ==> c.sipMethod == Invite) && (c.timerE.held ==> c.sipMethod == Other)
      && (Inv(c) || c.failed)
    else Inv(c)
  }

  lemma InvSound(c: Client)
    requires Inv(c)
    ensures Sound(c)
  {
  }

  /** Only a transaction that has terminated and in which a retransmission has failed is an exception. */
  lemma SoundInv(c: Client)
    requires Sound(c) && (c.state != Terminated || !c.failed)
    ensures Inv(c)
  {
  }

  /** A handle tells of its queue: an entry that is queued has its handle set, there is one at most, and
      with the handle set it is queued exactly if its add was not lost. */
  predicate Tells(h: Handle) {
    h.queued <= 1 && (h.queued == 1 ==> h.held) && (h.held ==> (h.queued == 1 <==> !h.lost))
  }

  lemma HandlesTell(c: Client)
    requires Sound(c)
    ensures Tells(c.timerA) && Tells(c.timerB) && Tells(c.timerC) && Tells(c.timerD) && Tells(c.provisional)
    ensures Tells(c.timerE) && Tells(c.timerF)
  {
  }

  /** Removing a lost entry by its handle changes nothing in the queue. */
  lemma StopOfLost(h: Handle)
    ensures h.lost || !h.held ==> Stop(h).queued == h.queued
    ensures h.held && !h.lost && h.queued > 0 ==> Stop(h).queued == h.queued - 1
    ensures !Stop(h).held
  {
  }

  lemma NewClientInv(branch: nat, target: string, rseq: nat)
    ensures Inv(NewClient(branch, target, rseq))
  {
  }

  // ---------- steps that keep it ----------

  lemma TerminatedKeeps(c: Client, q: Adds)
    requires Inv(c) && c.state != Completed
    ensures Inv(SetState(c, Terminated, q))
  {
    hide Inv;
    if c.state != Terminated {
      hide SetState;
      if c.sipMethod == Invite {
        InviteTerminates(c, q);
      } else {
        OtherTerminates(c, q);
      }
    }
  }

  lemma InviteTerminates(c: Client, q: Adds)
    requires Inv(c) && c.state != Completed && c.state != Terminated && c.sipMethod == Invite
    ensures Inv(SetState(c, Terminated, q))
  {
    var r := EnterInvite(c.(state := Terminated, late := Late(c, Terminated)), q);
    assert SetState(c, Terminated, q) == r;
    assert Once(r) && Placed(r) && Machine(r) && Answered(r) && Stale(r);
  }

  lemma OtherTerminates(c: Client, q: Adds)
    requires Inv(c) && c.state != Completed && c.state != Terminated && c.sipMethod != Invite
    ensures Inv(SetState(c, Terminated, q))
  {
    var r := EnterOther(c.(state := Terminated, late := Late(c, Terminated)), q);
    assert SetState(c, Terminated, q) == r;
    assert Once(r) && Placed(r) && Machine(r) && Answered(r) && Stale(r);
  }

  lemma TransmitKeeps(c: Client, invite: bool, q: Adds)
    requires Inv(c) && c.state != Terminated
    ensures Inv(Transmit(c, invite, q))
  {
  }

  lemma ForwardKeeps(c: Client, invite: bool, q: Adds, send: Send)
    requires Inv(c) && c.state != Terminated && c.state != Completed
    ensures Inv(ForwardRequest(c, invite, q, send).0)
  {
    hide Inv, SetState, Transmit;
    TransmitKeeps(c, invite, q);
    TransmitState(c, invite, q);
    TerminatedKeeps(Transmit(c, invite, q), q);
    TerminatedState(Transmit(c, invite, q), q);
    StatusKeeps(SetState(Transmit(c, invite, q), Terminated, q), 503);
  }

  lemma TransmitState(c: Client, invite: bool, q: Adds)
    requires c.state != Completed
    ensures Transmit(c, invite, q).state != Completed
  {
  }

  lemma TerminatedState(c: Client, q: Adds)
    ensures SetState(c, Terminated, q).state == Terminated
  {
  }

  lemma StatusKeeps(c: Client, status: int)
    requires Inv(c) && c.state == Terminated
    ensures Inv(c.(status := status))
  {
  }

  lemma CancelKeeps(c: Client, sent: bool, q: Adds)
    requires Inv(c)
    ensures Inv(CancelRequest(c, sent, q).0)
  {
    hide Inv, CancelRequest;
    if c.state == Calling || c.state == NotStarted {
      CancelEnds(c, sent, q);
    } else {
      CancelStops(c, sent, q);
    }
  }

  lemma CancelStops(c: Client, sent: bool, q: Adds)
    requires Inv(c) && c.state != Calling && c.state != NotStarted
    ensures Inv(CancelRequest(c, sent, q).0)
  {
    hide SetState;
    var r := c.(timerA := Stop(c.timerA), timerB := Stop(c.timerB), timerC := Stop(c.timerC));
    assert CancelRequest(c, sent, q).0 == r.(canceled := CancelRequest(c, sent, q).0.canceled);
    assert Once(r) && Placed(r) && Machine(r) && Answered(r) && Stale(r);
  }

  lemma CancelEnds(c: Client, sent: bool, q: Adds)
    requires Inv(c) && (c.state == Calling || c.state == NotStarted)
    ensures Inv(CancelRequest(c, sent, q).0)
  {
    var r := CancelRequest(c, sent, q).0;
    assert r.state == if c.state == Calling then Completed else Terminated;
    assert c.state == Calling ==> r.timerD.held;
    assert Once(r) && Placed(r) && Machine(r) && Answered(r) && Stale(r);
  }

  lemma TakeStatusKeeps(c: Client, r: Response, q: Adds)
    requires Inv(c) && c.transmitCount > 0 && c.state != Terminated && (c.state == Completed ==> r.status <= 199)
    ensures Inv(Settle(TakeStatus(c, r, q), r))
  {
    if r.status <= 199 {
      ProvisionalKeeps(c, r, q);
    } else if r.status <= 299 {
      SuccessKeeps(c, r, q);
    } else {
      FailureKeeps(c, r, q);
    }
  }

  lemma ProvisionalKeeps(c: Client, r: Response, q: Adds)
    requires Inv(c) && c.transmitCount > 0 && c.state != Terminated && r.status <= 199
    ensures Inv(Settle(TakeStatus(c, r, q), r))
  {
    var c1 := c.(status := r.status);
    var c2 := SetState(c1, Proceeding, q);
    ProceedingKeeps(c1, q);
    hide SetState, Inv;
    if c.sipMethod == Invite {
      RestartKeeps(c2, C in q.lost);
    }
    RSeqKeeps(TakeStatus(c, r, q), r);
  }

  lemma RestartKeeps(c: Client, lost: bool)
    requires Inv(c) && c.state == Proceeding && c.sipMethod == Invite
    ensures Inv(c.(timerC := Start(Stop(c.timerC), lost)))
  {
  }

  lemma RSeqKeeps(c: Client, r: Response)
    requires Inv(c) && r.status <= 199
    ensures Inv(Settle(c, r))
  {
  }

  lemma ProceedingKeeps(c: Client, q: Adds)
    requires Once(c) && Placed(c) && Machine(c) && Stale(c) && c.transmitCount > 0 && c.state != Terminated
    ensures var r := SetState(c, Proceeding, q);
      Inv(r) && r.state == Proceeding && r == c.(state := Proceeding, late := r.late, timerA := r.timerA,
        timerB := r.timerB, provisional := r.provisional, timerE := r.timerE)
  {
    if c.state != Proceeding {
      var c1 := c.(state := Proceeding, late := Late(c, Proceeding));
      var r := if c.sipMethod == Invite then EnterInvite(c1, q) else EnterOther(c1, q);
      assert Once(r) && Placed(r) && Machine(r) && Answered(r) && Stale(r);
    }
  }

  lemma SuccessKeeps(c: Client, r: Response, q: Adds)
    requires Inv(c) && c.transmitCount > 0 && c.state != Terminated && c.state != Completed && 200 <= r.status <= 299
    ensures Inv(Settle(TakeStatus(c, r, q), r))
  {
    if c.sipMethod == Invite {
      assert TakeStatus(c, r, q).state == Terminated;
    } else {
      assert TakeStatus(c, r, q).state == Completed;
    }
  }

  lemma FailureKeeps(c: Client, r: Response, q: Adds)
    requires Inv(c) && c.transmitCount > 0 && c.state != Terminated && c.state != Completed && r.status >= 300
    ensures Inv(Settle(TakeStatus(c, r, q), r))
  {
    CompletedParts(c.(status := r.status), q);
    hide SetState;
    FinalStored(TakeStatus(c, r, q), r);
  }

  lemma CompletedParts(c: Client, q: Adds)
    requires Once(c) && Placed(c) && Machine(c) && Stale(c) && c.transmitCount > 0
    requires c.state != Terminated && c.state != Completed
    ensures var r := SetState(c, Completed, q);
      && Once(r) && Placed(r) && Machine(r) && Stale(r) && r.state == Completed && r.status == c.status
      && !r.timerC.held
  {
    var c1 := c.(state := Completed, late := Late(c, Completed));
    var r := if c.sipMethod == Invite then EnterInvite(c1, q) else EnterOther(c1, q);
    assert Once(r) && Placed(r) && Machine(r) && Stale(r);
  }

  lemma FinalStored(c: Client, r: Response)
    requires Once(c) && Placed(c) && Machine(c) && Stale(c) && c.state == Completed && c.status == r.status >= 300
    requires !c.timerC.held
    ensures Inv(Settle(c, r))
  {
    assert Settle(c, r) == c.(final := Some(r));
  }

  lemma LateKeeps(c: Client, sent: bool, q: Adds)
    requires Inv(c) && c.state == Completed
    ensures Inv(CancelRequest(SetState(c, Proceeding, q), sent, q).0)
  {
    ProceedingKeeps(c, q);
    CancelKeeps(SetState(c, Proceeding, q), sent, q);
  }

  /** The assertions of timers D and K, exactly: the branch is not completed when one of them fires, if
      and only if a late response has led back from completed since, or it is a further entry of K. */
  lemma FinalTimersExactly(c: Client, t: Timer)
    requires Sound(c) && c.Queued(t) > 0 && (t == D || t == K)
    ensures c.state != Completed <==> c.late || (t == K && !c.timerK.held)
  {
  }

  /** The assertions at the head of the handlers of timers A, B, C, E and provisional. Those of A and E fail
      only in a transaction that has terminated. */
  lemma TimersFireWhereMeant(c: Client, t: Timer)
    requires Sound(c) && c.Queued(t) > 0
    ensures t == B || t == Provisional ==> c.state == Calling
    ensures t == C ==> c.state == Calling || c.state == Proceeding
    ensures t == A ==> c.sipMethod == Invite && (c.state == Calling || c.state == Terminated)
    ensures t == E ==> c.sipMethod == Other && (c.state == Trying || c.state == Terminated)
    ensures t == F ==> c.state == Trying || c.state == Proceeding
    ensures Inv(c) ==> (t == A ==> c.state == Calling) && (t == E ==> c.state == Trying)
    ensures t != K ==> c.Queued(t) == 1
  {
  }

  lemma RetransmitKeeps(c: Client, t: Timer, q: Adds, send: Send, cancelSent: bool)
    requires Inv(c) && c.Queued(t) > 0 && (t == A || t == E)
    ensures Inv(OnTimer(c, t, q, send, cancelSent)) <==> send != Failed
  {
    var c1 := Fired(c, t);
    var c2 := c1.(durationA := 2 * c1.durationA, failed := c1.failed || send == Failed);
    var r := OnTimer(c, t, q, send, cancelSent);
    if send == Failed {
      assert ForwardRequest(c2, c.sipMethod == Invite, q, send).0.state == Terminated;
      assert r.state == Terminated && (if t == A then r.timerA.held else r.timerE.held);
    } else {
      assert r.state == c.state && r.sipMethod == c.sipMethod;
      assert Once(r) && Placed(r) && Machine(r) && Answered(r) && Stale(r);
    }
  }

  lemma FinalTimerKeeps(c: Client, t: Timer, q: Adds, send: Send, cancelSent: bool)
    requires Inv(c) && c.Queued(t) > 0 && (t == B || t == D || t == F || t == K)
    ensures Inv(OnTimer(c, t, q, send, cancelSent))
  {
    hide Inv, OnTimer;
    if c.state == Terminated {
      FiredTerminated(c, t, q, send, cancelSent);
    } else if t == B || t == D {
      InviteFinalKeeps(c, t, q, send, cancelSent);
    } else {
      OtherFinalKeeps(c, t, q, send, cancelSent);
    }
  }

  lemma FiredTerminated(c: Client, t: Timer, q: Adds, send: Send, cancelSent: bool)
    requires Inv(c) && c.Queued(t) > 0 && c.state == Terminated && (t == B || t == D || t == F || t == K)
    ensures Inv(OnTimer(c, t, q, send, cancelSent))
  {
    assert OnTimer(c, t, q, send, cancelSent) == Fired(c, t);
  }

  lemma InviteFinalKeeps(c: Client, t: Timer, q: Adds, send: Send, cancelSent: bool)
    requires Inv(c) && c.Queued(t) > 0 && c.state != Terminated && (t == B || t == D)
    ensures Inv(OnTimer(c, t, q, send, cancelSent))
  {
    var c1 := Fired(c, t);
    var r := EnterInvite(c1.(state := Terminated, late := Late(c1, Terminated)), q);
    assert c.sipMethod == Invite && OnTimer(c, t, q, send, cancelSent) == r;
    assert Once(r) && Placed(r) && Machine(r) && Answered(r) && Stale(r);
  }

  lemma OtherFinalKeeps(c: Client, t: Timer, q: Adds, send: Send, cancelSent: bool)
    requires Inv(c) && c.Queued(t) > 0 && c.state != Terminated && (t == F || t == K)
    ensures Inv(OnTimer(c, t, q, send, cancelSent))
  {
    var c1 := Fired(c, t);
    var r := EnterOther(c1.(state := Terminated, late := Late(c1, Terminated)), q);
    assert c.sipMethod == Other && OnTimer(c, t, q, send, cancelSent) == r;
    assert Once(r) && Placed(r) && Machine(r) && Answered(r) && Stale(r);
  }

  lemma TimerCKeeps(c: Client, q: Adds, send: Send, cancelSent: bool)
    requires Inv(c) && c.Queued(C) > 0
    ensures Inv(OnTimer(c, C, q, send, cancelSent))
  {
    var c1 := Fired(c, C);
    if c.state == Proceeding {
      CancelKeeps(c1, cancelSent, q);
      TerminatedKeeps(CancelRequest(c1, cancelSent, q).0, q);
    } else {
      var r := EnterInvite(c1.(state := Terminated, late := Late(c1, Terminated)), q);
      assert Once(r) && Placed(r) && Machine(r) && Answered(r) && Stale(r);
    }
  }

  lemma ProvisionalTimerKeeps(c: Client, q: Adds, send: Send, cancelSent: bool)
    requires Inv(c) && c.Queued(Provisional) > 0
    ensures Inv(OnTimer(c, Provisional, q, send, cancelSent))
  {
    var r := EnterInvite(Fired(c, Provisional).(state := Completed, late := false), q);
    assert Once(r) && Placed(r) && Machine(r) && Answered(r) && Stale(r);
  }

  /** A firing timer keeps the invariant, unless it retransmits and that send fails: then a timer is set
      in a transaction that has just terminated. */
  lemma OnTimerKeepsIff(c: Client, t: Timer, q: Adds, send: Send, cancelSent: bool)
    requires Inv(c) && c.Queued(t) > 0
    ensures Inv(OnTimer(c, t, q, send, cancelSent)) <==> !((t == A || t == E) && send == Failed)
  {
    hide Inv, OnTimer;
    match t {
      case A => RetransmitKeeps(c, t, q, send, cancelSent);
      case E => RetransmitKeeps(c, t, q, send, cancelSent);
      case C => TimerCKeeps(c, q, send, cancelSent);
      case Provisional => ProvisionalTimerKeeps(c, q, send, cancelSent);
      case B => FinalTimerKeeps(c, t, q, send, cancelSent);
      case D => FinalTimerKeeps(c, t, q, send, cancelSent);
      case F => FinalTimerKeeps(c, t, q, send, cancelSent);
      case K => FinalTimerKeeps(c, t, q, send, cancelSent);
    }
  }

  // ---------- also after a retransmission that failed ----------

  lemma SoundCancel(c: Client, sent: bool, q: Adds)
    requires Sound(c)
    ensures Sound(CancelRequest(c, sent, q).0)
  {
    if c.state != Terminated {
      hide Inv, CancelRequest;
      SoundInv(c);
      CancelKeeps(c, sent, q);
      InvSound(CancelRequest(c, sent, q).0);
    } else {
      CancelTerminated(c, sent, q);
    }
  }

  lemma CancelTerminated(c: Client, sent: bool, q: Adds)
    requires Sound(c) && c.state == Terminated
    ensures Sound(CancelRequest(c, sent, q).0)
  {
    assert CancelRequest(c, sent, q).0 ==
           c.(timerA := Stop(c.timerA), timerB := Stop(c.timerB), timerC := Stop(c.timerC));
    if Inv(c) {
      CancelKeeps(c, sent, q);
    }
  }

  /** What a retransmission does apart from setting its timer. */
  function Resent(c: Client, t: Timer, q: Adds, send: Send): Client {
    var c1 := Fired(c, t);
    ForwardRequest(c1.(durationA := 2 * c1.durationA, failed := c1.failed || send == Failed),
                   c1.sipMethod == Invite, q, send).0
  }

  lemma FiredKeeps(c: Client, t: Timer)
    requires Inv(c) && (t == A || t == E)
    ensures Inv(Fired(c, t).(durationA := 2 * c.durationA, failed := true))
  {
  }

  lemma RearmedOnly(c: Client, t: Timer, q: Adds, send: Send, cancelSent: bool)
    requires t == A || t == E
    ensures OnTimer(c, t, q, send, cancelSent).(timerA := NULL, timerE := NULL)
            == Resent(c, t, q, send).(timerA := NULL, timerE := NULL)
  {
    hide ForwardRequest, Fired, SetState, CancelRequest;
    assert OnTimer(c, t, q, send, cancelSent) == RetransmitRequest(Fired(c, t), q, send);
  }

  /** The timer that was set is the only one of the two. */
  lemma Rearmed(c: Client, t: Timer, q: Adds, cancelSent: bool)
    requires Sound(c) && c.Queued(t) > 0 && (t == A || t == E)
    ensures var r := OnTimer(c, t, q, Failed, cancelSent);
      && r.state == Terminated && Single(r.timerA) && Single(r.timerE)
      && (r.timerA.held ==> r.sipMethod == Invite) && (r.timerE.held ==> r.sipMethod == Other) && r.failed
  {
    hide Sound, OnTimer;
    if t == A {
      RearmedA(c, q, cancelSent);
    } else {
      RearmedE(c, q, cancelSent);
    }
  }

  lemma RearmedA(c: Client, q: Adds, cancelSent: bool)
    requires Sound(c) && c.Queued(A) > 0
    ensures var r := OnTimer(c, A, q, Failed, cancelSent);
      && r.state == Terminated && Single(r.timerA) && Single(r.timerE) && !r.timerE.held
      && r.sipMethod == Invite && r.failed
  {
    TimersFireWhereMeant(c, A);
    OneMachine(c);
  }

  lemma RearmedE(c: Client, q: Adds, cancelSent: bool)
    requires Sound(c) && c.Queued(E) > 0
    ensures var r := OnTimer(c, E, q, Failed, cancelSent);
      && r.state == Terminated && Single(r.timerA) && Single(r.timerE) && !r.timerA.held
      && r.sipMethod == Other && r.failed
  {
    TimersFireWhereMeant(c, E);
    OneMachine(c);
  }

  lemma OneMachine(c: Client)
    requires Sound(c)
    ensures Single(c.timerA) && Single(c.timerE)
    ensures c.sipMethod == Invite ==> !c.timerE.held
    ensures c.sipMethod == Other ==> !c.timerA.held
  {
  }

  lemma ResendFails(c: Client, t: Timer, q: Adds, cancelSent: bool)
    requires Inv(c) && c.state != Terminated && c.Queued(t) > 0 && (t == A || t == E)
    ensures Sound(OnTimer(c, t, q, Failed, cancelSent))
  {
    TimersFireWhereMeant(c, t);
    Rearmed(c, t, q, cancelSent);
    hide Inv, OnTimer, ForwardRequest;
    FiredKeeps(c, t);
    ForwardKeeps(Fired(c, t).(durationA := 2 * c.durationA, failed := true), c.sipMethod == Invite, q, Failed);
    RearmedOnly(c, t, q, Failed, cancelSent);
    WithoutTimers(Resent(c, t, q, Failed));
  }

  lemma WithoutTimers(c: Client)
    requires Inv(c)
    ensures c.state == Terminated ==> Inv(c.(timerA := NULL, timerE := NULL))
  {
  }

  lemma ResendTerminated(c: Client, t: Timer, q: Adds, send: Send, cancelSent: bool)
    requires Sound(c) && c.state == Terminated && c.Queued(t) > 0 && (t == A || t == E)
    ensures Sound(OnTimer(c, t, q, send, cancelSent))
  {
    TimersFireWhereMeant(c, t);
    var r := OnTimer(c, t, q, send, cancelSent);
    assert r.(timerA := NULL, timerE := NULL) == c.(timerA := NULL, timerE := NULL, durationA := r.durationA,
                                                    transmitCount := r.transmitCount, status := r.status,
                                                    failed := r.failed);
    assert r.transmitCount > 0 && c.transmitCount > 0;
  }

  lemma FinalTerminated(c: Client, t: Timer, q: Adds, send: Send, cancelSent: bool)
    requires Sound(c) && c.state == Terminated && c.Queued(t) > 0 && t != A && t != E
    ensures Sound(OnTimer(c, t, q, send, cancelSent))
  {
    TimersFireWhereMeant(c, t);
    assert t == D || t == K;
    assert OnTimer(c, t, q, send, cancelSent) == Fired(c, t);
    if Inv(c) {
      OnTimerKeepsIff(c, t, q, send, cancelSent);
    }
  }

  /** Any firing timer, however the send goes. */
  lemma SoundTimer(c: Client, t: Timer, q: Adds, send: Send, cancelSent: bool)
    requires Sound(c) && c.Queued(t) > 0
    ensures Sound(OnTimer(c, t, q, send, cancelSent))
  {
    hide Inv, OnTimer;
    if c.state == Terminated {
      hide Sound;
      if t == A || t == E {
        ResendTerminated(c, t, q, send, cancelSent);
      } else {
        FinalTerminated(c, t, q, send, cancelSent);
      }
    } else {
      SoundInv(c);
      if (t == A || t == E) && send == Failed {
        ResendFails(c, t, q, cancelSent);
      } else {
        OnTimerKeepsIff(c, t, q, send, cancelSent);
        InvSound(OnTimer(c, t, q, send, cancelSent));
      }
    }
  }

  lemma SoundAnswered(c: Client)
    requires Sound(c)
    ensures Answered(c)
  {
  }
}
