/**
 * The payment-link page (routed with a link code): it looks the code up among the
 * active links, shows that link's amount, bumps the link's access counter,
 * and runs the form → phone dialog → payment steps; an unknown or inactive
 * code sends the payer back to `/` after two seconds.
 */
module PaymentLink {
  import opened Wrappers
  import opened Customer
  import opened Pix
  import opened Steps

  const RedirectDelayMs := 2000

  type LinkId = nat

  /** A row of `payment_links`, with the amount in centavos. */
  datatype LinkRow = LinkRow(code: string, amountCents: int, isActive: bool, accessCount: int)

  /** The rows a query with `code = c` and `is_active = true` returns. */
  function ActiveMatches(rows: map<LinkId, LinkRow>, code: string): (r: set<LinkId>)
    ensures r <= rows.Keys
    ensures forall id :: id in r ==> rows[id].code == code && rows[id].isActive
    ensures forall id :: id in rows && rows[id].code == code && rows[id].isActive ==> id in r
  {
    set id | id in rows && rows[id].code == code && rows[id].isActive
  }

  /** The store's uniqueness constraint on `code`. */
  ghost predicate UniqueCodes(rows: map<LinkId, LinkRow>)
  {
    forall i, j :: i in rows && j in rows && rows[i].code == rows[j].code ==> i == j
  }

  lemma SingletonMember(s: set<LinkId>, id: LinkId)
    requires |s| == 1 && id in s
    ensures s == {id}
  {
    assert |s - {id}| == 0;
  }

  /**
   * `.single()` accepts exactly one matching row; with unique codes that is
   * the same as the code belonging to an active link.
   */
  lemma AcceptedIffActiveLink(rows: map<LinkId, LinkRow>, code: string)
    requires UniqueCodes(rows)
    ensures |ActiveMatches(rows, code)| == 1 <==> exists id :: id in rows && rows[id].code == code && rows[id].isActive
  {
    var m := ActiveMatches(rows, code);
    if id :| id in rows && rows[id].code == code && rows[id].isActive {
      assert m == {id};
    } else {
      assert m == {};
    }
  }

  /** The access counter of `id` written as the value read plus one; every other row as it was. */
  function Touched(rows: map<LinkId, LinkRow>, id: LinkId): (r: map<LinkId, LinkRow>)
    requires id in rows
    ensures r.Keys == rows.Keys
    ensures r[id].accessCount == rows[id].accessCount + 1
    ensures r[id] == rows[id].(accessCount := r[id].accessCount)
    ensures forall other :: other in rows && other != id ==> r[other] == rows[other]
  {
    rows[id := rows[id].(accessCount := rows[id].accessCount + 1)]
  }

  /** How the counter update ended: written, refused by the store (the error is ignored), or thrown. */
  datatype WriteOutcome = Written | WriteRejected | WriteThrew

  class LinkTable {
    var rows: map<LinkId, LinkRow>

    constructor (initial: map<LinkId, LinkRow>)
      ensures rows == initial
    {
      rows := initial;
    }

    /**
     * Looks the code up among active links and, when exactly one row matches,
     * writes that row's counter as the value read plus one (if the write goes
     * through). Returns the row as read.
     */
    method ResolveAndTouch(code: string, write: WriteOutcome) returns (found: Option<(LinkId, LinkRow)>)
      modifies this
      ensures found.Some? <==> |ActiveMatches(old(rows), code)| == 1
      ensures found.Some? ==>
                && ActiveMatches(old(rows), code) == {found.value.0}
                && found.value.1 == old(rows)[found.value.0]
                && rows == (if write == Written then Touched(old(rows), found.value.0) else old(rows))
      ensures found.None? ==> rows == old(rows)
    {
      var matches := ActiveMatches(rows, code);
      if |matches| != 1 {
        return None;
      }
      var id :| id in matches;
      SingletonMember(matches, id);
      var row := rows[id];
      if write == Written {
        rows := rows[id := row.(accessCount := row.accessCount + 1)];
      }
      found := Some((id, row));
    }
  }

  /** What the page renders. */
  datatype PageScreen = LoadingLink | Blank | Checkout(amountCents: int, view: CheckoutView)

  class PaymentLinkPage {
    /** The `:code` route parameter. */
    const code: Option<string>
    var customerData: Option<CustomerData>
    var showPhoneModal: bool
    var confirmedPhone: string
    var showPayment: bool
    var totalAmount: int
    var loadingLink: bool
    var linkValid: bool
    /** A navigation to `/` is scheduled after `RedirectDelayMs`. */
    var redirectScheduled: bool

    constructor (routeCode: Option<string>)
      ensures code == routeCode
      ensures customerData.None? && !showPhoneModal && confirmedPhone == "" && !showPayment
      ensures totalAmount == 0 && loadingLink && !linkValid && !redirectScheduled
    {
      code := routeCode;
      customerData := None;
      showPhoneModal := false;
      confirmedPhone := "";
      showPayment := false;
      totalAmount := 0;
      loadingLink := true;
      linkValid := false;
      redirectScheduled := false;
    }

    /**
     * `fetchPaymentLink`: an accepted link sets the amount and validity and
     * has its counter bumped (a refused write is ignored); no match, or a
     * query that throws, schedules the redirect and writes nothing. Loading
     * ends on every path.
     */
    method FetchPaymentLink(table: LinkTable, queryThrows: bool, write: WriteOutcome)
      requires code.Some?
      modifies this, table
      ensures !loadingLink
      ensures var accepted := !queryThrows && |ActiveMatches(old(table.rows), code.value)| == 1;
              && (accepted ==>
                    exists id :: ActiveMatches(old(table.rows), code.value) == {id}
                                 && totalAmount == old(table.rows)[id].amountCents
                                 && table.rows == (if write == Written then Touched(old(table.rows), id) else old(table.rows)))
              && (accepted ==> linkValid && redirectScheduled == (old(redirectScheduled) || write == WriteThrew))
              && (!accepted ==> table.rows == old(table.rows) && linkValid == old(linkValid)
                                && totalAmount == old(totalAmount) && redirectScheduled)
      ensures customerData == old(customerData) && showPhoneModal == old(showPhoneModal)
      ensures confirmedPhone == old(confirmedPhone) && showPayment == old(showPayment)
    {
      loadingLink := true;
      if queryThrows {
        redirectScheduled := true;
        loadingLink := false;
        return;
      }
      var found := table.ResolveAndTouch(code.value, write);
      if found.None? {
        redirectScheduled := true;
      } else {
        totalAmount := found.value.1.amountCents;
        linkValid := true;
        if write == WriteThrew {
          redirectScheduled := true;
        }
      }
      loadingLink := false;
    }

    /** The mount effect: with no code in the route nothing is queried and the page keeps loading. */
    method Mount(table: LinkTable, queryThrows: bool, write: WriteOutcome)
      modifies this, table
      ensures code.None? ==>
                && loadingLink == old(loadingLink) && linkValid == old(linkValid) && table.rows == old(table.rows)
                && totalAmount == old(totalAmount) && redirectScheduled == old(redirectScheduled)
      ensures code.Some? ==> !loadingLink
      ensures code.Some? ==>
                var accepted := !queryThrows && |ActiveMatches(old(table.rows), code.value)| == 1;
                && (accepted ==>
                      exists id :: ActiveMatches(old(table.rows), code.value) == {id}
                                   && totalAmount == old(table.rows)[id].amountCents
                                   && table.rows == (if write == Written then Touched(old(table.rows), id) else old(table.rows)))
                && (accepted ==> linkValid && redirectScheduled == (old(redirectScheduled) || write == WriteThrew))
                && (!accepted ==> table.rows == old(table.rows) && linkValid == old(linkValid)
                                  && totalAmount == old(totalAmount) && redirectScheduled)
      ensures customerData == old(customerData) && showPhoneModal == old(showPhoneModal)
      ensures confirmedPhone == old(confirmedPhone) && showPayment == old(showPayment)
    {
      if code.Some? {
        FetchPaymentLink(table, queryThrows, write);
      }
    }

    /** The form's callback: the data is stored and the phone dialog opens. */
    method HandleCustomerDataFilled(data: CustomerData)
      modifies this`customerData, this`showPhoneModal
      ensures customerData == Some(data) && showPhoneModal
      ensures showPayment == old(showPayment) && confirmedPhone == old(confirmedPhone)
      ensures totalAmount == old(totalAmount) && linkValid == old(linkValid) && loadingLink == old(loadingLink)
    {
      customerData := Some(data);
      showPhoneModal := true;
    }

    /** The dialog's confirm: the phone is stored, the dialog closes and payment is shown. */
    method HandlePhoneConfirm(phone: string)
      modifies this`confirmedPhone, this`showPhoneModal, this`showPayment
      ensures confirmedPhone == phone && !showPhoneModal && showPayment
      ensures customerData == old(customerData)
      ensures totalAmount == old(totalAmount) && linkValid == old(linkValid) && loadingLink == old(loadingLink)
    {
      confirmedPhone := phone;
      showPhoneModal := false;
      showPayment := true;
    }

    /** The dialog's cancel: it only closes. */
    method HandlePhoneCancel()
      modifies this`showPhoneModal
      ensures !showPhoneModal
      ensures customerData == old(customerData) && confirmedPhone == old(confirmedPhone) && showPayment == old(showPayment)
      ensures totalAmount == old(totalAmount) && linkValid == old(linkValid) && loadingLink == old(loadingLink)
    {
      showPhoneModal := false;
    }

    /** A loader while the link loads, nothing for an invalid link, else the steps with the link's amount and code. */
    function Screen(): (s: PageScreen)
      reads this
      ensures s.LoadingLink? <==> loadingLink
      ensures s.Blank? <==> !loadingLink && !linkValid
      ensures s.Checkout? ==> s.amountCents == totalAmount
      ensures s.Checkout? && s.view.payment.Some? ==>
                s.view.payment.value.amountCents == totalAmount && s.view.payment.value.paymentLinkCode == code
                && s.view.payment.value == PropsFor(customerData, totalAmount, code)
      ensures s.Checkout? ==> (s.view.payment.Some? <==> showPayment)
      ensures s.Checkout? ==> (s.view.modal.Some? <==> customerData.Some?)
      ensures s.Checkout? && s.view.modal.Some? ==> s.view.modal.value == ModalProps(showPhoneModal, customerData.value.phone)
    {
      if loadingLink then LoadingLink
      else if !linkValid then Blank
      else Checkout(totalAmount, CheckoutViewFor(customerData, showPhoneModal, showPayment, totalAmount, code))
    }
  }
}
