/** Dialog objects and the two in-place tables that hold them: the invites in progress and the
    stable dialogs (src/sip-dialog.hpp, src/sip-dialog.cpp, src/invite-in-progress.*). */
module SipDialogs {
  import opened Wrappers

  // Opaque handles of the SIP stack, and the string keys drachtio builds from them.
  type Leg = nat
  type Irq = nat
  type Orq = nat
  type Txn = nat
  type DialogId = nat
  type Timer = nat

  const NTA_SIP_T1: nat := 500
  const NTA_SIP_T2: nat := 4000

  /** What one dialog object holds at a given moment. */
  datatype Dialog = Dialog(
    leg: Leg, txn: Txn, dialogId: DialogId, uas: bool, inviteDialog: bool, status: nat,
    timerG: Option<Timer>, timerH: Option<Timer>, durationG: nat,
    inviteIrq: Option<Irq>, updateIrq: Option<Irq>, updateTxn: Txn, pending: set<Txn>)

  class SipDialog {
    const leg: Leg
    const txn: Txn
    const dialogId: DialogId
    const uas: bool
    const inviteDialog: bool
    var status: nat
    var timerG: Option<Timer>
    var timerH: Option<Timer>
    var durationG: nat
    var inviteIrq: Option<Irq>
    var updateIrq: Option<Irq>
    var updateTxn: Txn
    var pending: set<Txn>

    function Rec(): Dialog
      reads this
    {
      Dialog(leg, txn, dialogId, uas, inviteDialog, status, timerG, timerH, durationG,
             inviteIrq, updateIrq, updateTxn, pending)
    }

    constructor (leg: Leg, txn: Txn, dialogId: DialogId, uas: bool, inviteDialog: bool)
      ensures Rec() == NewDialog(leg, txn, dialogId, uas, inviteDialog)
    {
      this.leg, this.txn, this.dialogId, this.uas, this.inviteDialog := leg, txn, dialogId, uas, inviteDialog;
      status := if uas then 100 else 0;
      timerG, timerH, durationG := None, None, 0;
      inviteIrq, updateIrq, updateTxn, pending := None, None, 0, {};
    }

    method SetTimerG(handle: Timer)
      modifies this
      ensures Rec() == old(Rec()).(timerG := Some(handle),
                                   durationG := if old(durationG) == 0 then NTA_SIP_T1 else old(durationG))
    {
      timerG := Some(handle);
      if durationG == 0 {
        durationG := NTA_SIP_T1;
      }
    }

    method BumpTimerG() returns (ms: nat)
      modifies this
      ensures ms == Bumped(old(durationG)) && Rec() == old(Rec()).(durationG := ms)
    {
      durationG := if 2 * durationG <= NTA_SIP_T2 then 2 * durationG else NTA_SIP_T2;
      ms := durationG;
    }
  }

  function NewDialog(leg: Leg, txn: Txn, dialogId: DialogId, uas: bool, inviteDialog: bool): Dialog {
    Dialog(leg, txn, dialogId, uas, inviteDialog, if uas then 100 else 0, None, None, 0, None, None, 0, {})
  }

  /** The next timer G interval: doubled, at most T2. */
  function Bumped(ms: nat): nat { if 2 * ms <= NTA_SIP_T2 then 2 * ms else NTA_SIP_T2 }

  /** One invite in progress; its transaction id is its key in the table. */
  datatype Iip = Iip(leg: Leg, irq: Option<Irq>, orq: Option<Orq>, dlg: SipDialog)

  type Iips = map<Txn, Iip>
}
