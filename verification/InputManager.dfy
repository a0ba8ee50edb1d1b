/** Ctrl+v in the input manager: the clipboard request that precedes the key. */
module InputManager {
  import C = Controller
  import P = PasteProtocol

  /** The part of the input manager that handles Ctrl+v. */
  class Manager {
    const controller: C.ControllerObject
    var nextSequence: nat

    constructor (c: C.ControllerObject)
      ensures controller == c && nextSequence == 1
    {
      controller := c;
      nextSequence := 1;
    }

    /** Requests the clipboard synchronisation before Ctrl+v is injected: the key
        has to wait for an acknowledgement only on an asynchronous keyboard, and
        a sequence number is used up only when the request was accepted. */
    method SyncClipboard(text: bool, asyncPaste: bool) returns (ok: bool, ackToWait: nat)
      modifies `nextSequence, controller`queue, controller`consumer
      ensures var m := C.SetClipboard(if asyncPaste then old(nextSequence) else P.SEQUENCE_INVALID, false);
              && ok == (text && C.Accepts(old(controller.View()), m))
              && controller.View() == (if ok then C.Push(old(controller.View()), m) else old(controller.View()))
              && ackToWait == (if ok then m.sequence else P.SEQUENCE_INVALID)
              && nextSequence == old(nextSequence) + (if ok && asyncPaste then 1 else 0)
    {
      ackToWait := P.SEQUENCE_INVALID;
      var sequence := if asyncPaste then nextSequence else P.SEQUENCE_INVALID;
      ok := text;
      if ok {
        ok := controller.PushMsg(C.SetClipboard(sequence, false));
      }
      if ok && asyncPaste {
        ackToWait := sequence;
        nextSequence := nextSequence + 1;
      }
    }

    /** Ctrl+v on a USB keyboard is one step of the system. */
    method CtrlVUsb(ghost s: P.System) returns (ok: bool, ackToWait: nat)
      requires s.ui.UiIdle? && controller.View() == s.ctl && nextSequence == s.nextSequence
      modifies `nextSequence, controller`queue, controller`consumer
      ensures var t := P.Exec(s, P.CtrlV);
              && controller.View() == t.ctl && nextSequence == t.nextSequence
              && ok == t.ui.UiKey? && (ok ==> ackToWait == t.ui.sequence)
    {
      ok, ackToWait := SyncClipboard(true, true);
    }
  }
}
