/**
 * The transaction PIN dialog (PinVerification component): a digits-only
 * PIN field, at most three wrong PINs before the dialog locks, and a reset
 * on success and on close.
 *
 * The PIN the dialog compares against is a parameter (`expectedPin`). The
 * 500 ms verification delay is not modelled: the comparison runs as the
 * second half of the same step.
 */
module Pin {
  import opened Chars

  const MaxAttempts: nat := 3

  const MinPinLength: nat := 4

  /** `maxLength` of the PIN input. */
  const PinMaxLength: nat := 6

  /** The `error` message, by kind. */
  datatype PinError =
    | NoError
    | TooShort
    | TooManyAttempts
    | Incorrect(remaining: int)

  /** The value the PIN field holds after an edit: at most six characters typed, non-digits removed. */
  function PinInput(raw: string): (pin: string)
    ensures AllDigits(pin) && |pin| <= PinMaxLength
    ensures Subsequence(pin, Take(raw, PinMaxLength))
    ensures forall c :: IsDigit(c) ==> Count(pin, c) == Count(Take(raw, PinMaxLength), c)
  {
    KeepDigits(Take(raw, PinMaxLength))
  }

  /** Typing digits only (up to six) keeps them exactly. */
  lemma PinInputOfDigits(raw: string)
    requires AllDigits(raw) && |raw| <= PinMaxLength
    ensures PinInput(raw) == raw
  {
    KeepDigitsOfDigits(raw);
  }

  class PinVerification {
    var pin: string
    var error: PinError
    var loading: bool
    var attempts: nat

    /** The attempt counter never passes the limit. */
    ghost predicate Valid()
      reads this
    {
      attempts <= MaxAttempts
    }

    constructor ()
      ensures Valid()
      ensures pin == "" && error == NoError && !loading && attempts == 0
    {
      pin := "";
      error := NoError;
      loading := false;
      attempts := 0;
    }

    /** The PIN field is disabled once the dialog is locked. */
    predicate Locked()
      reads this
    {
      attempts >= MaxAttempts
    }

    /** The Verify button's `disabled` expression. */
    predicate SubmitDisabled()
      reads this
    {
      loading || Locked()
    }

    /** `onChange` of the PIN field; a disabled field receives no input. */
    method OnPinChange(raw: string)
      requires Valid()
      modifies this`pin
      ensures Valid()
      ensures !Locked() ==> pin == PinInput(raw)
      ensures Locked() ==> pin == old(pin)
    {
      if attempts < MaxAttempts {
        pin := PinInput(raw);
      }
    }

    /**
     * `handleSubmit`: a PIN shorter than four characters is refused first;
     * then a locked dialog refuses without comparing; otherwise the PIN is
     * compared, a match resets the dialog and reports success, a mismatch
     * counts an attempt and reports the attempts that remain.
     */
    method HandleSubmit(expectedPin: string) returns (verified: bool)
      requires Valid()
      modifies this
      ensures Valid()
      ensures verified <==> |old(pin)| >= MinPinLength && old(attempts) < MaxAttempts && old(pin) == expectedPin
      ensures |old(pin)| < MinPinLength ==>
        error == TooShort && attempts == old(attempts) && pin == old(pin) && loading == old(loading)
      ensures |old(pin)| >= MinPinLength && old(attempts) >= MaxAttempts ==>
        error == TooManyAttempts && attempts == old(attempts) && pin == old(pin) && loading == old(loading)
      ensures verified ==> attempts == 0 && pin == "" && error == NoError && !loading
      ensures |old(pin)| >= MinPinLength && old(attempts) < MaxAttempts && old(pin) != expectedPin ==>
        && attempts == old(attempts) + 1
        && error == Incorrect(MaxAttempts - old(attempts) - 1)
        && pin == "" && !loading
    {
      error := NoError;
      verified := false;
      if |pin| < MinPinLength {
        error := TooShort;
        return;
      }
      if attempts >= MaxAttempts {
        error := TooManyAttempts;
        return;
      }
      loading := true;
      if pin == expectedPin {
        verified := true;
        pin := "";
        attempts := 0;
      } else {
        error := Incorrect(MaxAttempts - attempts - 1);
        attempts := attempts + 1;
        pin := "";
      }
      loading := false;
    }

    /** `handleClose`: the dialog starts over. */
    method HandleClose()
      modifies this`pin, this`error, this`attempts
      ensures Valid()
      ensures pin == "" && error == NoError && attempts == 0
    {
      pin := "";
      error := NoError;
      attempts := 0;
    }
  }

  /**
   * Three wrong PINs in a row lock the dialog: the third reports no attempts
   * remaining, the disabled field no longer takes the correct PIN, and the
   * submit after it is refused.
   */
  method LockoutScenario(expectedPin: string, wrongPin: string)
    returns (firstReport: PinError, lastReport: PinError, unlocked: bool, finalReport: PinError)
    requires AllDigits(expectedPin) && MinPinLength <= |expectedPin| <= PinMaxLength
    requires AllDigits(wrongPin) && MinPinLength <= |wrongPin| <= PinMaxLength && wrongPin != expectedPin
    ensures firstReport == Incorrect(2)
    ensures lastReport == Incorrect(0)
    ensures !unlocked && finalReport == TooShort
  {
    PinInputOfDigits(wrongPin);
    PinInputOfDigits(expectedPin);
    var dialog := new PinVerification();
    var ok;
    dialog.OnPinChange(wrongPin);
    ok := dialog.HandleSubmit(expectedPin);
    firstReport := dialog.error;
    dialog.OnPinChange(wrongPin);
    ok := dialog.HandleSubmit(expectedPin);
    dialog.OnPinChange(wrongPin);
    ok := dialog.HandleSubmit(expectedPin);
    lastReport := dialog.error;
    dialog.OnPinChange(expectedPin);
    unlocked := dialog.HandleSubmit(expectedPin);
    finalReport := dialog.error;
  }
}
