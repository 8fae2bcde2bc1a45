/**
 * The landing page's checkout: the same form → phone dialog → payment steps
 * as a payment link, with a fixed amount and no link code.
 */
module IndexPage {
  import opened Wrappers
  import opened Customer
  import opened Pix
  import opened Steps

  /** R$ 214,80 in centavos. */
  const TotalAmountCents := 21480

  class IndexPage {
    var customerData: Option<CustomerData>
    var showPhoneModal: bool
    var confirmedPhone: string
    var showPayment: bool

    constructor ()
      ensures customerData.None? && !showPhoneModal && confirmedPhone == "" && !showPayment
    {
      customerData := None;
      showPhoneModal := false;
      confirmedPhone := "";
      showPayment := false;
    }

    /** The form's callback: the data is stored and the phone dialog opens; payment is not shown yet. */
    method HandleCustomerDataFilled(data: CustomerData)
      modifies this
      ensures customerData == Some(data) && showPhoneModal
      ensures showPayment == old(showPayment) && confirmedPhone == old(confirmedPhone)
    {
      customerData := Some(data);
      showPhoneModal := true;
    }

    /** The dialog's confirm: the phone is stored, the dialog closes and payment is shown. */
    method HandlePhoneConfirm(phone: string)
      modifies this
      ensures confirmedPhone == phone && !showPhoneModal && showPayment
      ensures customerData == old(customerData)
    {
      confirmedPhone := phone;
      showPhoneModal := false;
      showPayment := true;
    }

    /** The dialog's cancel: it only closes. */
    method HandlePhoneCancel()
      modifies this
      ensures !showPhoneModal
      ensures customerData == old(customerData) && confirmedPhone == old(confirmedPhone) && showPayment == old(showPayment)
    {
      showPhoneModal := false;
    }

    /** The page body: the fixed amount and no link code reach the payment step; the dialog is mounted once data exists. */
    function View(): (v: CheckoutView)
      reads this
      ensures v.payment.Some? <==> showPayment
      ensures v.payment.Some? ==> v.payment.value.amountCents == TotalAmountCents && v.payment.value.paymentLinkCode.None?
      ensures v.payment.Some? ==> v.payment.value == PropsFor(customerData, TotalAmountCents, None)
      ensures v.modal.Some? <==> customerData.Some?
      ensures v.modal.Some? ==> v.modal.value == ModalProps(showPhoneModal, customerData.value.phone)
    {
      CheckoutViewFor(customerData, showPhoneModal, showPayment, TotalAmountCents, None)
    }
  }
}
