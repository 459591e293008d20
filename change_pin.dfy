/** The change-PIN page (src/pages/ChangePin.tsx): the check of the new PIN
    and its confirmation, and the PUT it guards. */
module ChangePin {
  import opened Wrappers

  /** The message `validatePin` stores: the length check first, then the
      comparison with the confirmation; "" when the form is acceptable. */
  function PinError(pin: string, confirmPin: string): (msg: string)
    ensures msg == "" <==> |pin| == 4 && pin == confirmPin
  {
    if |pin| != 4 then "PIN must be exactly 4 characters"
    else if pin != confirmPin then "PINs do not match"
    else ""
  }

  /** A PIN of the wrong length gets the length message even when the
      confirmation differs, and any four characters are accepted: there is
      no digit check. */
  lemma LengthBeforeMismatch(pin: string, confirmPin: string)
    ensures |pin| != 4 ==> PinError(pin, confirmPin) == "PIN must be exactly 4 characters"
    ensures PinError(pin, confirmPin) == "PINs do not match" <==> |pin| == 4 && pin != confirmPin
    ensures PinError("ab!?", "ab!?") == ""
  {
  }

  /** The request the page sends: the path names the user, the body holds the PIN only. */
  datatype PinUpdate = PinUpdate(path: string, pin: string)

  class ChangePinForm {
    const userId: string
    var pin: string
    var confirmPin: string
    var error: string
    var isSubmitting: bool

    constructor (id: string)
      ensures userId == id
      ensures pin == "" && confirmPin == "" && error == "" && !isSubmitting
    {
      userId := id;
      pin, confirmPin, error := "", "", "";
      isSubmitting := false;
    }

    /** `validatePin`: store the message (reset to "" on acceptance) and report acceptance. */
    method ValidatePin() returns (ok: bool)
      modifies this`error
      ensures error == PinError(pin, confirmPin)
      ensures ok <==> error == ""
    {
      error := PinError(pin, confirmPin);
      ok := error == "";
    }

    /** `handleSubmit`: a rejected form sends nothing and leaves `isSubmitting`
        alone; an accepted one sends the PIN to the user's PIN endpoint and
        ends with `isSubmitting` false. */
    method HandleSubmit() returns (sent: Option<PinUpdate>)
      modifies this`error, this`isSubmitting
      ensures error == PinError(pin, confirmPin)
      ensures sent.Some? <==> |pin| == 4 && pin == confirmPin
      ensures sent.Some? ==> sent.value == PinUpdate("/users/" + userId + "/pin", pin)
      ensures isSubmitting == if sent.Some? then false else old(isSubmitting)
    {
      var ok := ValidatePin();
      if !ok {
        return None;
      }
      isSubmitting := true;
      sent := Some(PinUpdate("/users/" + userId + "/pin", pin));
      isSubmitting := false;
    }
  }
}
