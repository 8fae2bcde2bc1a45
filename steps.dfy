/**
 * What both checkout pages render once the customer steps are under way:
 * the form or the PIX payment, and the phone dialog once customer data
 * exists. The two pages share this markup and differ only in the amount and
 * the link code they pass on.
 */
module Steps {
  import opened Wrappers
  import opened Customer
  import opened Pix

  /** The phone dialog's props: open or closed, and the phone it starts from. */
  datatype ModalProps = ModalProps(isOpen: bool, initialPhone: string)

  /** `payment` is `None` while the form is shown; `modal` is `None` while the dialog is not mounted. */
  datatype CheckoutView = CheckoutView(payment: Option<PixProps>, modal: Option<ModalProps>)

  function CheckoutViewFor(customerData: Option<CustomerData>, showPhoneModal: bool, showPayment: bool,
                           amountCents: int, linkCode: Option<string>): (v: CheckoutView)
    ensures v.payment.Some? <==> showPayment
    ensures v.payment.Some? ==> v.payment.value == PropsFor(customerData, amountCents, linkCode)
    ensures v.modal.Some? <==> customerData.Some?
    ensures v.modal.Some? ==> v.modal.value == ModalProps(showPhoneModal, customerData.value.phone)
  {
    CheckoutView(
      if showPayment then Some(PropsFor(customerData, amountCents, linkCode)) else None,
      if customerData.Some? then Some(ModalProps(showPhoneModal, customerData.value.phone)) else None)
  }

  /** The props the payment step receives never involve the phone confirmed in the dialog, nor the one typed in the form. */
  lemma PaymentIgnoresPhone(d1: CustomerData, d2: CustomerData, showPhoneModal: bool, amountCents: int, linkCode: Option<string>)
    requires d1.name == d2.name && d1.email == d2.email && d1.cpf == d2.cpf
    ensures CheckoutViewFor(Some(d1), showPhoneModal, true, amountCents, linkCode).payment
         == CheckoutViewFor(Some(d2), showPhoneModal, true, amountCents, linkCode).payment
  {
  }
}
