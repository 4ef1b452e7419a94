/** The mobile identity-verification dialog of the ownership step
    (src/components/MobileVerificationModal.jsx). Its local state moves
    idle -> sending -> verifying -> success or failed, and back to idle on a
    retry or when the dialog closes. Each `await` splits a handler into the
    part before it and a continuation that runs when the mock answers. */
module VerificationModal {
  import opened Common
  import Verification

  datatype Status = Idle | Sending | Verifying | Succeeded | Failed

  datatype Mode = Qr | Sms

  const EnterValidPhone := "Please enter a valid phone number"

  const Waiting := "Waiting for verification..."

  /** The success rate the dialog asks the mock for. */
  const DialogSuccessRate := 0.85

  /** The QR and SMS controls are on screen unless a verification is running or has ended. */
  predicate ControlsShown(status: Status)
  {
    status != Verifying && status != Succeeded && status != Failed
  }

  /** The send button is disabled while an SMS is being sent. */
  predicate SendEnabled(status: Status)
  {
    status != Sending
  }

  /** "Try Again" is shown on the failure screen only, and only when the result allows a retry. */
  predicate RetryShown(status: Status, canRetry: bool)
  {
    status == Failed && canRetry
  }

  /** The send button can be pressed exactly in the idle state. */
  lemma SendPressableOnlyWhenIdle(status: Status)
    ensures ControlsShown(status) && SendEnabled(status) <==> status == Idle
  {
  }

  class Modal {
    const sessionId: string
    const qrData: string
    var mode: Mode
    var phoneInput: string
    var status: Status
    var message: string
    var canRetry: bool

    /** A retry is only ever offered on the failure screen. */
    predicate Valid()
      reads this
    {
      canRetry ==> status == Failed
    }

    /** Mounting the dialog: a session identifier and its QR link are drawn
        once, and the phone field starts from the `phone` property. */
    constructor(now: nat, randomText: string, phone: string)
      ensures sessionId == Verification.GenerateSessionId(now, randomText)
      ensures qrData == Verification.QrCodeData(sessionId)
      ensures mode == Qr && phoneInput == phone
      ensures status == Idle && message == "" && !canRetry
      ensures Valid()
    {
      sessionId := Verification.GenerateSessionId(now, randomText);
      qrData := Verification.QrCodeData(Verification.GenerateSessionId(now, randomText));
      mode := Qr;
      phoneInput := phone;
      status := Idle;
      message := "";
      canRetry := false;
    }

    /** The effect that runs when `isOpen` becomes false; the tab and the phone field are kept. */
    method Close()
      modifies this
      ensures status == Idle && message == "" && !canRetry
      ensures mode == old(mode) && phoneInput == old(phoneInput)
      ensures Valid()
    {
      status := Idle;
      message := "";
      canRetry := false;
    }

    method SelectMode(m: Mode)
      modifies this
      ensures mode == m
      ensures phoneInput == old(phoneInput) && status == old(status)
      ensures message == old(message) && canRetry == old(canRetry)
    {
      mode := m;
    }

    method EditPhone(s: string)
      modifies this
      ensures phoneInput == s
      ensures mode == old(mode) && status == old(status)
      ensures message == old(message) && canRetry == old(canRetry)
    {
      phoneInput := s;
    }

    /** `handleSendSMS` up to its `await`: a number shorter than ten characters
        only sets a message; otherwise the dialog starts sending. `sent` says
        whether the request went out, carrying `phoneInput`. */
    method HandleSendSms() returns (sent: bool)
      requires ControlsShown(status) && SendEnabled(status)
      modifies this
      ensures sent <==> |old(phoneInput)| >= 10
      ensures !sent ==> message == EnterValidPhone && status == old(status)
      ensures sent ==> status == Sending && message == ""
      ensures mode == old(mode) && phoneInput == old(phoneInput) && canRetry == old(canRetry)
      ensures old(Valid()) ==> Valid()
    {
      if phoneInput == "" || |phoneInput| < 10 {
        message := EnterValidPhone;
        return false;
      }
      status := Sending;
      message := "";
      return true;
    }

    /** `startVerification` up to its `await`. */
    method StartVerification()
      modifies this
      ensures status == Verifying && message == Waiting
      ensures mode == old(mode) && phoneInput == old(phoneInput) && canRetry == old(canRetry)
    {
      status := Verifying;
      message := Waiting;
    }

    /** "I've Scanned the Code". */
    method HandleQrScan()
      requires ControlsShown(status)
      modifies this
      ensures status == Verifying && message == Waiting
      ensures mode == old(mode) && phoneInput == old(phoneInput) && canRetry == old(canRetry)
      ensures old(Valid()) ==> Valid()
    {
      StartVerification();
    }

    /** The rest of `handleSendSMS`, once the mock has answered for the
        number `sentPhone` that was sent; `draw` decides delivery. A delivered
        link starts the verification, a failure returns to idle with the
        mock's message. */
    method OnSmsResult(sentPhone: string, draw: real)
      modifies this
      ensures var r := Verification.SendVerificationSms(sentPhone, sessionId, draw);
              && (r.success ==> status == Verifying && message == Waiting)
              && (!r.success ==> status == Idle && message == r.message)
      ensures mode == old(mode) && phoneInput == old(phoneInput) && canRetry == old(canRetry)
      ensures !old(canRetry) ==> Valid()
    {
      var r := Verification.SendVerificationSms(sentPhone, sessionId, draw);
      if r.success {
        message := r.message;
        StartVerification();
      } else {
        status := Idle;
        message := r.message;
      }
    }

    /** The rest of `startVerification`, once the mock has decided. A success
        shows the mock's message and hands its result to `onSuccess` (after
        a delay); a failure shows the reason and whether a retry is allowed. */
    method OnVerificationResult(ownerName: Option<string>, d: Verification.SimulationDraws)
      returns (handedOver: Option<Verification.VerificationResult>)
      requires Verification.ValidSimulationDraws(d)
      modifies this
      ensures var sim := Verification.SimulateVerification(
                Verification.SimulationOptions(Some(DialogSuccessRate), ownerName), d);
              && (sim.success ==> status == Succeeded && message == sim.result.message
                                  && handedOver == Some(sim.result) && canRetry == old(canRetry))
              && (!sim.success ==> status == Failed && message == sim.result.reason
                                   && canRetry == sim.result.canRetry && handedOver == None)
      ensures status == Succeeded <==> d.success < DialogSuccessRate
      ensures status == Failed ==> canRetry && message in Verification.FailureReasons
      ensures mode == old(mode) && phoneInput == old(phoneInput)
      ensures !old(canRetry) ==> Valid()
    {
      var sim := Verification.SimulateVerification(
        Verification.SimulationOptions(Some(DialogSuccessRate), ownerName), d);
      if sim.success {
        status := Succeeded;
        message := sim.result.message;
        handedOver := Some(sim.result);
      } else {
        status := Failed;
        message := sim.result.reason;
        canRetry := sim.result.canRetry;
        handedOver := None;
      }
    }

    /** "Try Again". */
    method Retry()
      requires RetryShown(status, canRetry)
      modifies this
      ensures status == Idle && message == "" && !canRetry
      ensures mode == old(mode) && phoneInput == old(phoneInput)
      ensures Valid()
    {
      status := Idle;
      message := "";
      canRetry := false;
    }
  }
}
