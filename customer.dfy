/** The customer record the checkout form hands to the page, and the `||` fallback the pages use when passing it on. */
module Customer {

  datatype CustomerData = CustomerData(name: string, email: string, phone: string, cpf: string)

  /** Every field filled in (`!cpf || !name || !email || !phone` is false). */
  predicate Complete(d: CustomerData)
    ensures Complete(d) <==> "" !in [d.cpf, d.name, d.email, d.phone]
  {
    d.cpf != "" && d.name != "" && d.email != "" && d.phone != ""
  }

  /** `s || fallback` for a string: an empty string is falsy. */
  function OrDefault(s: string, fallback: string): (r: string)
    ensures r == s || r == fallback
    ensures r == fallback <==> s == "" || s == fallback
  {
    if s == "" then fallback else s
  }
}
