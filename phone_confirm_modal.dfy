/**
 * The phone confirmation dialog: it starts from the phone the form gave,
 * lets the payer edit it, and confirms only a phone with eleven digits.
 */
module PhoneConfirmModal {
  import opened Wrappers
  import opened Digits

  const PhoneDigits := 11

  /** The confirm guard: eleven digits once non-digits are removed. */
  predicate Confirmable(phone: string)
    ensures Confirmable(phone) <==> DigitCount(phone) == PhoneDigits
  {
    DigitsOnlyLength(phone);
    |DigitsOnly(phone)| == PhoneDigits
  }

  class PhoneConfirmModal {
    var phone: string

    /** `useState(initialPhone)`: the prop is read once, at mount. */
    constructor (initialPhone: string)
      ensures phone == initialPhone
    {
      phone := initialPhone;
    }

    /** A re-render with a new `initialPhone` does not re-synchronise the edited phone. */
    method ReceiveInitialPhone(initialPhone: string)
      ensures phone == old(phone)
    {
    }

    /** The input's `onChange`: the phone becomes the input value. */
    method HandleChange(value: string)
      modifies this
      ensures phone == value
    {
      phone := value;
    }

    /** `handleConfirm`: `onConfirm` receives the phone as typed, mask included, exactly when it has eleven digits. */
    method HandleConfirm() returns (confirmed: Option<string>)
      ensures confirmed.Some? <==> Confirmable(phone)
      ensures confirmed.Some? ==> confirmed.value == phone
    {
      if Confirmable(phone) {
        confirmed := Some(phone);
      } else {
        confirmed := None;
      }
    }
  }

  /** The dialog's `onOpenChange`: closing it calls `onCancel`, opening it does not. */
  function OnOpenChangeCallsCancel(open: bool): (callsCancel: bool)
    ensures callsCancel != open
  {
    !open
  }
}
