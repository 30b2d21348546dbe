/** One branch of a forked request: the client transaction, its state machine and its timers
    (src/sip-proxy-controller.cpp, ClientTransaction). */
module ProxyTransactions {
  import opened Wrappers
  import opened SipDialogs

  datatype TransactionState = NotStarted | Trying | Calling | Proceeding | Completed | Terminated
  datatype Method = Unknown | Invite | Other
  /** The status of a response off the wire (RFC 3261, section 25.1). */
  type Status = s: int | 100 <= s <= 699 witness 100

  /** What the CSeq of a response names: the proxied request itself, a CANCEL for it, or another. */
  datatype CSeq = Own | Cancel | Foreign

  /** `prack` when the method that the CSeq names is PRACK, be it the proxied one or not. */
  datatype Response = Response(branch: nat, cseq: CSeq, prack: bool, status: Status, rseq: Option<nat>,
                               contacts: seq<string>, challenge: bool)

  /** How handing a request to the stack went: sent, no transport for the target, or an error. */
  datatype Send = Sent | NoTransport | Failed

  datatype Timer = A | B | C | D | E | F | K | Provisional

  /** A timer: whether the handle is set, how many entries for it are in the timer queues, and whether
      the entry that the handle stands for was lost when it was added. */
  datatype Handle = Handle(held: bool, queued: nat, lost: bool)

  const NULL := Handle(false, 0, false)

  /** What one step meets at the timer queues: whether a provisional timeout is configured, and which
      adds are lost because the deadline equals the last one queued. */
  datatype Adds = Adds(provisional: bool, lost: set<Timer>)

  /** The handle is stored whether or not the entry was linked. */
  function Start(h: Handle, lost: bool): Handle { Handle(true, if lost then h.queued else h.queued + 1, lost) }

  /** Removing an entry that is not in the queue changes nothing there. */
  function Stop(h: Handle): Handle {
    if !h.held then h else Handle(false, if !h.lost && h.queued > 0 then h.queued - 1 else h.queued, false)
  }

  /** The queue hands an entry to its callback, which starts by forgetting the handle. */
  function Fire(h: Handle): Handle { Handle(false, if h.queued > 0 then h.queued - 1 else 0, false) }

  /** What one client transaction holds; `prackBranch` is the branch its last PRACK went out with. `late` and
      `failed` are history that nothing reads: whether a response has led back from completed to proceeding
      since the transaction was last completed, and whether a retransmission has failed in the send. */
  datatype Client = Client(
    branch: nat, target: string, sipMethod: Method, state: TransactionState, canceled: bool, status: int,
    transmitCount: nat, durationA: nat, rseq: nat, final: Option<Response>,
    timerA: Handle, timerB: Handle, timerC: Handle, timerD: Handle, provisional: Handle,
    timerE: Handle, timerF: Handle, timerK: Handle, prackBranch: Option<nat>, late: bool, failed: bool)
  {
    function Queued(t: Timer): nat {
      match t
      case A => timerA.queued
      case B => timerB.queued
      case C => timerC.queued
      case D => timerD.queued
      case E => timerE.queued
      case F => timerF.queued
      case K => timerK.queued
      case Provisional => provisional.queued
    }
  }

  function NewClient(branch: nat, target: string, rseq: nat): Client {
    Client(branch, target, Unknown, NotStarted, false, 0, 0, 0, rseq, None,
           NULL, NULL, NULL, NULL, NULL, NULL, NULL, NULL, None, false, false)
  }

  function Fired(c: Client, t: Timer): Client {
    match t
    case A => c.(timerA := Fire(c.timerA))
    case B => c.(timerB := Fire(c.timerB))
    case C => c.(timerC := Fire(c.timerC))
    case D => c.(timerD := Fire(c.timerD))
    case E => c.(timerE := Fire(c.timerE))
    case F => c.(timerF := Fire(c.timerF))
    case K => c.(timerK := Fire(c.timerK))
    case Provisional => c.(provisional := Fire(c.provisional))
  }

  // ---------- the state machine ----------

  function EnterInvite(c: Client, q: Adds): Client {
    match c.state
    case Calling =>
      c.(durationA := NTA_SIP_T1, timerA := Start(c.timerA, A in q.lost), timerB := Start(c.timerB, B in q.lost),
         timerC := Start(c.timerC, C in q.lost),
         provisional := if q.provisional then Start(c.provisional, Provisional in q.lost) else c.provisional)
    case Proceeding =>
      c.(timerA := Stop(c.timerA), timerB := Stop(c.timerB), provisional := Stop(c.provisional))
    case Completed =>
      c.(timerA := Stop(c.timerA), timerB := Stop(c.timerB), timerC := Stop(c.timerC),
         provisional := Stop(c.provisional), timerD := Start(Stop(c.timerD), D in q.lost))
    case Terminated =>
      c.(timerA := Stop(c.timerA), timerB := Stop(c.timerB), timerC := Stop(c.timerC),
         provisional := Stop(c.provisional))
    case _ => c
  }

  function EnterOther(c: Client, q: Adds): Client {
    match c.state
    case Trying =>
      c.(durationA := NTA_SIP_T1, timerE := Start(c.timerE, E in q.lost), timerF := Start(c.timerF, F in q.lost))
    case Proceeding => c.(timerE := Stop(c.timerE))
    case Completed => c.(timerE := Stop(c.timerE), timerF := Stop(c.timerF), timerK := Start(c.timerK, K in q.lost))
    case Terminated => c.(timerE := Stop(c.timerE), timerF := Stop(c.timerF), timerK := Stop(c.timerK))
    case _ => c
  }

  function Late(c: Client, s: TransactionState): bool {
    s != Completed && (c.late || (c.state == Completed && s == Proceeding))
  }

  function SetState(c: Client, s: TransactionState, q: Adds): Client {
    if s == c.state then c
    else
      var c1 := c.(state := s, late := Late(c, s));
      if c.sipMethod == Invite then EnterInvite(c1, q) else EnterOther(c1, q)
  }

  /** `invite` is the method of the proxied request, which only a first transmission takes on. */
  function Transmit(c: Client, invite: bool, q: Adds): Client {
    var c1 := c.(transmitCount := c.transmitCount + 1);
    if c.state != NotStarted then c1
    else if invite then SetState(c1.(sipMethod := Invite), Calling, q)
    else SetState(c1.(sipMethod := Other), Trying, q)
  }

  /** Whether the caller is told that the request went out: also when the send failed. */
  function ForwardRequest(c: Client, invite: bool, q: Adds, send: Send): (Client, bool) {
    var c1 := Transmit(c, invite, q);
    match send
    case NoTransport => (c1, false)
    case Failed => (SetState(c1, Terminated, q).(status := 503), true)
    case Sent => (c1, true)
  }

  function RetransmitRequest(c: Client, q: Adds, send: Send): Client {
    var c0 := c.(durationA := 2 * c.durationA, failed := c.failed || send == Failed);
    var (c1, ok) := ForwardRequest(c0, c.sipMethod == Invite, q, send);
    if !ok then c1
    else if c.sipMethod == Invite then c1.(timerA := Start(c1.timerA, A in q.lost))
    else c1.(timerE := Start(c1.timerE, E in q.lost))
  }

  /** Its second member: whether a CANCEL went out. The handles of timers E, F and K are not touched,
      since the code removes timer C again in their place. */
  function CancelRequest(c: Client, sent: bool, q: Adds): (Client, bool) {
    var c1 := c.(timerA := Stop(c.timerA), timerB := Stop(c.timerB), timerC := Stop(c.timerC));
    match c.state
    case Calling => (SetState(c1, Completed, q).(canceled := true), false)
    case NotStarted => (SetState(c1, Terminated, q), false)
    case Proceeding => if sent then (c1.(canceled := true), true) else (c1, false)
    case _ => (c1, false)
  }

  /** A response to the request itself: status, state and timers. */
  function TakeStatus(c: Client, r: Response, q: Adds): Client {
    var c1 := c.(status := r.status);
    if r.status <= 199 then
      var c2 := SetState(c1, Proceeding, q);
      if r.status != 100 && c.sipMethod == Invite then c2.(timerC := Start(Stop(c2.timerC), C in q.lost)) else c2
    else if r.status <= 299 then
      SetState(c1, if c.sipMethod == Invite then Terminated else Completed, q)
    else
      SetState(c1, Completed, q)
  }

  /** What is left to do once the proxy has been told of a 2xx. */
  function Settle(c: Client, r: Response): Client {
    var c1 := if r.status >= 200 && c.sipMethod == Invite then c.(timerC := Stop(c.timerC)) else c;
    var c2 := if 100 < r.status < 200 && r.rseq.Some? then c1.(rseq := r.rseq.value) else c1;
    if r.status >= 300 then c2.(final := Some(r)) else c2
  }

  predicate LateForCanceled(c: Client, r: Response) {
    c.canceled && c.state == Completed && c.status == 0 && r.cseq == Own && c.sipMethod == Invite
  }

  /** A firing timer changes its own transaction; what the proxy does then comes after. */
  function OnTimer(c: Client, t: Timer, q: Adds, send: Send, cancelSent: bool): Client {
    var c1 := Fired(c, t);
    match t
    case A => RetransmitRequest(c1, q, send)
    case E => RetransmitRequest(c1, q, send)
    case C =>
      SetState(if c1.state == Proceeding then CancelRequest(c1, cancelSent, q).0 else c1, Terminated, q)
    case Provisional => SetState(c1, Completed, q)
    case _ => SetState(c1, Terminated, q)
  }

  // ---------- the object ----------

  class ClientTransaction {
    const branch: nat
    const target: string
    const initialRSeq: nat  // the RSeq field is not initialised: whatever was in memory
    var sipMethod: Method
    var state: TransactionState
    var canceled: bool
    var status: int
    var transmitCount: nat
    var durationA: nat
    var rseq: nat
    var final: Option<Response>
    var timerA: Handle
    var timerB: Handle
    var timerC: Handle
    var timerD: Handle
    var provisional: Handle
    var timerE: Handle
    var timerF: Handle
    var timerK: Handle
    var prackBranch: Option<nat>
    var late: bool
    var failed: bool

    function Rec(): Client
      reads this
    {
      Client(branch, target, sipMethod, state, canceled, status, transmitCount, durationA, rseq, final,
             timerA, timerB, timerC, timerD, provisional, timerE, timerF, timerK,
             prackBranch, late, failed)
    }

    constructor (branch: nat, target: string, garbage: nat)
      ensures this.branch == branch && this.target == target
      ensures Rec() == NewClient(branch, target, initialRSeq)
    {
      this.branch, this.target, initialRSeq := branch, target, garbage;
      sipMethod, state, canceled, status := Unknown, NotStarted, false, 0;
      transmitCount, durationA, rseq, final := 0, 0, garbage, None;
      timerA, timerB, timerC, timerD, provisional := NULL, NULL, NULL, NULL, NULL;
      timerE, timerF, timerK, prackBranch := NULL, NULL, NULL, None;
      late, failed := false, false;
    }

    method ClearTimer(t: Timer)
      modifies this`timerA, this`timerB, this`timerC, this`timerD, this`provisional, this`timerE, this`timerF,
               this`timerK
      ensures Rec() == Fired(old(Rec()), t)
    {
      match t {
        case E => timerE := Fire(timerE);
        case F => timerF := Fire(timerF);
        case K => timerK := Fire(timerK);
        case _ => ClearInviteTimer(t);
      }
    }

    method ClearInviteTimer(t: Timer)
      requires t != E && t != F && t != K
      modifies this`timerA, this`timerB, this`timerC, this`timerD, this`provisional
      ensures Rec() == Fired(old(Rec()), t)
    {
      match t {
        case A => timerA := Fire(timerA);
        case B => timerB := Fire(timerB);
        case C => timerC := Fire(timerC);
        case D => timerD := Fire(timerD);
        case Provisional => provisional := Fire(provisional);
      }
    }

    method EnterCalling(q: Adds)
      requires state == Calling
      modifies this`timerA, this`timerB, this`timerC, this`provisional, this`durationA
      ensures Rec() == EnterInvite(old(Rec()), q)
    {
      durationA := NTA_SIP_T1;
      timerA := Start(timerA, A in q.lost);
      timerB := Start(timerB, B in q.lost);
      timerC := Start(timerC, C in q.lost);
      if q.provisional { provisional := Start(provisional, Provisional in q.lost); }
    }

    /** Timers A, B and provisional stop, and timer C unless the transaction is proceeding. */
    method StopInviteTimers(alsoC: bool)
      modifies this`timerA, this`timerB, this`timerC, this`provisional
      ensures var c := old(Rec());
        Rec() == c.(timerA := Stop(c.timerA), timerB := Stop(c.timerB),
                    timerC := if alsoC then Stop(c.timerC) else c.timerC, provisional := Stop(c.provisional))
    {
      timerA := Stop(timerA);
      timerB := Stop(timerB);
      if alsoC { timerC := Stop(timerC); }
      provisional := Stop(provisional);
    }

    method EnterStateOfInvite(q: Adds)
      modifies this`timerA, this`timerB, this`timerC, this`timerD, this`provisional, this`durationA
      ensures Rec() == EnterInvite(old(Rec()), q)
    {
      if state == Calling {
        EnterCalling(q);
      } else if state == Proceeding {
        StopInviteTimers(false);
      } else if state == Completed {
        StopInviteTimers(true);
        timerD := Stop(timerD);
        timerD := Start(timerD, D in q.lost);
      } else if state == Terminated {
        StopInviteTimers(true);
      }
    }

    method EnterStateOfOther(q: Adds)
      modifies this`timerE, this`timerF, this`timerK, this`durationA
      ensures Rec() == EnterOther(old(Rec()), q)
    {
      match state {
        case Trying =>
          durationA := NTA_SIP_T1;
          timerE := Start(timerE, E in q.lost);
          timerF := Start(timerF, F in q.lost);
        case Proceeding =>
          timerE := Stop(timerE);
        case Completed =>
          timerE := Stop(timerE);
          timerF := Stop(timerF);
          timerK := Start(timerK, K in q.lost);
        case Terminated =>
          timerE := Stop(timerE);
          timerF := Stop(timerF);
          timerK := Stop(timerK);
        case _ =>
      }
    }

    method ChangeState(s: TransactionState, q: Adds)
      modifies this`state, this`timerA, this`timerB, this`timerC, this`timerD, this`provisional,
               this`timerE, this`timerF, this`timerK, this`durationA, this`late
      ensures Rec() == SetState(old(Rec()), s, q)
    {
      if s == state { return; }
      late := Late(Rec(), s);
      state := s;
      if sipMethod == Invite {
        EnterStateOfInvite(q);
      } else {
        EnterStateOfOther(q);
      }
    }

    method CountTransmission(invite: bool, q: Adds)
      modifies this
      ensures Rec() == Transmit(old(Rec()), invite, q)
    {
      hide SetState;
      transmitCount := transmitCount + 1;
      if state == NotStarted {
        sipMethod := if invite then Invite else Other;
        ChangeState(if sipMethod == Invite then Calling else Trying, q);
      }
    }

    method Forward(invite: bool, q: Adds, send: Send) returns (ok: bool)
      modifies this
      ensures (Rec(), ok) == ForwardRequest(old(Rec()), invite, q, send)
    {
      hide SetState, Transmit;
      CountTransmission(invite, q);
      if send == NoTransport { return false; }
      if send == Failed {
        ChangeState(Terminated, q);
        status := 503;
      }
      return true;
    }

    method Retransmit(q: Adds, send: Send)
      modifies this
      ensures Rec() == RetransmitRequest(old(Rec()), q, send)
    {
      hide ForwardRequest;
      var invite := sipMethod == Invite;
      durationA := 2 * durationA;
      failed := failed || send == Failed;
      var ok := Forward(invite, q, send);
      if ok {
        SetResendTimer(invite, q);
      }
    }

    method SetResendTimer(invite: bool, q: Adds)
      modifies this`timerA, this`timerE
      ensures var c := old(Rec());
        Rec() == if invite then c.(timerA := Start(c.timerA, A in q.lost))
                 else c.(timerE := Start(c.timerE, E in q.lost))
    {
      if invite { timerA := Start(timerA, A in q.lost); } else { timerE := Start(timerE, E in q.lost); }
    }

    method StopCallTimers()
      modifies this`timerA, this`timerB, this`timerC
      ensures var c := old(Rec());
        Rec() == c.(timerA := Stop(c.timerA), timerB := Stop(c.timerB), timerC := Stop(c.timerC))
    {
      timerA := Stop(timerA);
      timerB := Stop(timerB);
      timerC := Stop(timerC);
    }

    /** The branch key of a PRACK that goes out on this branch. */
    method NotePrack(key: nat)
      modifies this`prackBranch
      ensures Rec() == old(Rec()).(prackBranch := Some(key))
    {
      prackBranch := Some(key);
    }

    method CancelTransaction(sendOk: bool, q: Adds) returns (sent: bool)
      modifies this
      ensures (Rec(), sent) == CancelRequest(old(Rec()), sendOk, q)
    {
      hide SetState;
      StopCallTimers();
      if state == Calling {
        ChangeState(Completed, q);
        canceled := true;
        return false;
      }
      if state == NotStarted {
        ChangeState(Terminated, q);
        return false;
      }
      if state != Proceeding { return false; }
      if !sendOk { return false; }
      canceled := true;
      return true;
    }

    method Take(r: Response, q: Adds)
      modifies this
      ensures Rec() == TakeStatus(old(Rec()), r, q)
    {
      hide SetState;
      status := r.status;
      if status <= 199 {
        ChangeState(Proceeding, q);
        if status != 100 && sipMethod == Invite {
          timerC := Stop(timerC);
          timerC := Start(timerC, C in q.lost);
        }
      } else if status <= 299 {
        ChangeState(if sipMethod == Invite then Terminated else Completed, q);
      } else {
        ChangeState(Completed, q);
      }
    }

    method Finish(r: Response)
      modifies this
      ensures Rec() == Settle(old(Rec()), r)
    {
      if r.status >= 200 && sipMethod == Invite { timerC := Stop(timerC); }
      if 100 < r.status < 200 && r.rseq.Some? { rseq := r.rseq.value; }
      if r.status >= 300 { final := Some(r); }
    }

    /** A timer of this transaction fires; also whether a CANCEL went out. */
    method Expire(t: Timer, q: Adds, send: Send, cancelOk: bool) returns (sent: bool)
      modifies this
      ensures Rec() == OnTimer(old(Rec()), t, q, send, cancelOk)
      ensures sent <==> t == C && old(state) == Proceeding && cancelOk
    {
      hide SetState, RetransmitRequest;
      sent := false;
      ClearTimer(t);
      match t {
        case A => Retransmit(q, send);
        case E => Retransmit(q, send);
        case C =>
          if state == Proceeding { sent := CancelTransaction(cancelOk, q); }
          ChangeState(Terminated, q);
        case Provisional => ChangeState(Completed, q);
        case B => ChangeState(Terminated, q);
        case D => ChangeState(Terminated, q);
        case F => ChangeState(Terminated, q);
        case K => ChangeState(Terminated, q);
      }
    }
  }
}
