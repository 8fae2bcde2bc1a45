/**
 * The customer form: CPF, name, e-mail and phone. A CPF with eleven digits
 * starts a (simulated) lookup that, one second later, fills name, e-mail and
 * phone with fixed values; submitting hands the four fields to the page when
 * none is empty.
 */
module CheckoutForm {
  import opened Wrappers
  import opened Digits
  import opened Customer

  const CpfDigits := 11
  const LookupName := "João da Silva Santos"
  const LookupEmail := "joao.silva@email.com"
  const LookupPhone := "(11) 98765-4321"

  /** An edited CPF value starts a lookup exactly when it holds eleven digits, whatever its mask characters. */
  predicate StartsLookup(cpfValue: string)
    ensures StartsLookup(cpfValue) <==> DigitCount(cpfValue) == CpfDigits
  {
    DigitsOnlyLength(cpfValue);
    |DigitsOnly(cpfValue)| == CpfDigits
  }

  class CheckoutForm {
    var cpf: string
    var name: string
    var email: string
    var phone: string
    var isLoading: bool
    /** Lookups started whose one-second wait has not finished. */
    var pendingLookups: nat

    ghost predicate Valid()
      reads this
    {
      isLoading ==> pendingLookups > 0
    }

    constructor ()
      ensures Valid()
      ensures cpf == "" && name == "" && email == "" && phone == ""
      ensures !isLoading && pendingLookups == 0
    {
      cpf, name, email, phone := "", "", "", "";
      isLoading := false;
      pendingLookups := 0;
    }

    /** `fetchCustomerData`: unless the value has eleven digits nothing happens; otherwise loading starts and a lookup is pending. */
    method FetchCustomerData(cpfValue: string) returns (started: bool)
      requires Valid()
      modifies this
      ensures Valid()
      ensures started <==> StartsLookup(cpfValue)
      ensures started ==> isLoading && pendingLookups == old(pendingLookups) + 1
      ensures !started ==> isLoading == old(isLoading) && pendingLookups == old(pendingLookups)
      ensures cpf == old(cpf) && name == old(name) && email == old(email) && phone == old(phone)
    {
      if !StartsLookup(cpfValue) {
        return false;
      }
      isLoading := true;
      pendingLookups := pendingLookups + 1;
      started := true;
    }

    /** `handleCpfChange`: the masked value is stored as typed, and an eleven-digit value starts a lookup. */
    method HandleCpfChange(value: string) returns (lookupStarted: bool)
      requires Valid()
      modifies this
      ensures Valid()
      ensures cpf == value
      ensures lookupStarted <==> StartsLookup(value)
      ensures lookupStarted ==> isLoading && pendingLookups == old(pendingLookups) + 1
      ensures !lookupStarted ==> isLoading == old(isLoading) && pendingLookups == old(pendingLookups)
      ensures name == old(name) && email == old(email) && phone == old(phone)
    {
      cpf := value;
      lookupStarted := false;
      if StartsLookup(value) {
        lookupStarted := FetchCustomerData(value);
      }
    }

    /** A pending lookup finishes: name, e-mail and phone get the fixed values whatever CPF was typed, and loading ends. */
    method CompleteLookup()
      requires Valid() && pendingLookups > 0
      modifies this
      ensures Valid()
      ensures name == LookupName && email == LookupEmail && phone == LookupPhone
      ensures !isLoading && pendingLookups == old(pendingLookups) - 1
      ensures cpf == old(cpf)
    {
      name := LookupName;
      email := LookupEmail;
      phone := LookupPhone;
      isLoading := false;
      pendingLookups := pendingLookups - 1;
    }

    method SetName(value: string)
      modifies this`name
      ensures name == value
    {
      name := value;
    }

    method SetEmail(value: string)
      modifies this`email
      ensures email == value
    {
      email := value;
    }

    method SetPhone(value: string)
      modifies this`phone
      ensures phone == value
    {
      phone := value;
    }

    /**
     * `handleSubmit`: with any field empty nothing is handed on; otherwise the
     * page's callback receives exactly the current values (CPF length and
     * e-mail format are not checked).
     */
    method HandleSubmit() returns (submitted: Option<CustomerData>)
      ensures submitted.Some? <==> cpf != "" && name != "" && email != "" && phone != ""
      ensures submitted.Some? ==> submitted.value == CustomerData(name, email, phone, cpf) && Complete(submitted.value)
    {
      if cpf == "" || name == "" || email == "" || phone == "" {
        return None;
      }
      submitted := Some(CustomerData(name, email, phone, cpf));
    }
  }
}
