/**
 * The `create-pix` edge function: it reads the platform's two FusionPay keys
 * from the environment, builds an HTTP Basic credential from them, turns the
 * checkout's request into a FusionPay transaction request, and maps the
 * gateway's answer to its own reply (the upstream JSON unchanged on success,
 * status 500 with an error message otherwise).
 *
 * The environment, the request body and the gateway's answer are inputs; the
 * handler is a pure function of them that also says which call, if any, it
 * sends to the gateway.
 */
module CreatePix {
  import opened Wrappers
  import opened Digits
  import opened Base64
  import opened Json

  /** `Deno.env.get` of FUSIONPAY_PUBLIC_KEY and FUSIONPAY_SECRET_KEY (`None` when unset). */
  datatype Env = Env(publicKey: Option<string>, secretKey: Option<string>)

  /**
   * The fields the handler reads from the request body; the amount is already
   * in centavos. `customerCpf` is `None` when the body's value is not a
   * string, so that `customerCpf.replace` throws a `TypeError`.
   */
  datatype PixRequest = PixRequest(amountCents: int, customerName: string, customerEmail: string, customerCpf: Option<string>)

  /** `await req.json()`: the decoded body, or the runtime's message when it does not parse. */
  datatype RequestBody = Body(request: PixRequest) | Malformed(message: string)

  datatype Item = Item(title: string, unitPrice: int, quantity: int, tangible: bool)
  datatype Document = Document(docType: string, number: string)
  datatype Customer = Customer(name: string, email: string, document: Document)
  datatype Transaction = Transaction(amount: int, paymentMethod: string, pixExpiresIn: int, items: seq<Item>, customer: Customer)

  /** The one outbound call: POST to the transactions endpoint. */
  datatype GatewayRequest = GatewayRequest(url: string, authorization: string, body: Transaction)

  /** What the `fetch` to the gateway produced: a response (status, raw text, and its JSON parse), or a network failure. */
  datatype Upstream = Responded(status: nat, text: string, parsed: Parsed) | NetworkFailure(message: string)

  /** The function's reply: the CORS preflight, the upstream JSON with status 200, or `{ error }` with status 500. */
  datatype Reply = Preflight | Success(data: Json) | ServerError(message: string)

  /** Outcome of a handler run: the gateway call it made, if any, and its reply. */
  datatype Handled = Handled(sent: Option<GatewayRequest>, reply: Reply)

  const TransactionsUrl := "https://api.fusionpaybr.com.br/v1/transactions"
  const ItemTitle := "Black Friday"
  const PixExpiresInSeconds := 3600
  const CredentialsMissing := "FusionPay credentials not configured"
  const ApiErrorPrefix := "FusionPay API error: "
  /** The message of the exception `btoa` raises for a character above 0xFF. */
  const Latin1Error := "The string to be encoded contains characters outside of the Latin1 range."
  /** The message of the `TypeError` raised by calling `replace` on a CPF that is not a string. */
  const CpfTypeError := "customerCpf.replace is not a function"

  /** The HTTP status of a reply: 500 for the error reply, the default 200 otherwise. */
  function StatusOf(r: Reply): (status: int)
    ensures status == 500 <==> r.ServerError?
    ensures status != 500 ==> status == 200
  {
    if r.ServerError? then 500 else 200
  }

  /** `response.ok`. */
  predicate IsOk(status: int)
    ensures IsOk(status) <==> status / 100 == 2
  {
    200 <= status <= 299
  }

  /** Both environment keys set and non-empty (`!publicKey || !secretKey` is false). */
  predicate CredentialsConfigured(env: Env)
    ensures CredentialsConfigured(env) <==> env.publicKey.GetOr("") != "" && env.secretKey.GetOr("") != ""
  {
    env.publicKey.Some? && env.publicKey.value != "" && env.secretKey.Some? && env.secretKey.value != ""
  }

  /** The `Authorization` header value: `Basic ` and the base 64 of `publicKey:secretKey`; `None` where `btoa` throws. */
  function BasicAuthorization(publicKey: string, secretKey: string): (r: Option<string>)
    ensures r.Some? <==> IsLatin1(publicKey) && IsLatin1(secretKey)
    ensures r.Some? <==> IsLatin1(publicKey + ":" + secretKey)
    ensures r.Some? ==> r.value == "Basic " + Encode(CharCodes(publicKey + ":" + secretKey))
  {
    var pair := publicKey + ":" + secretKey;
    assert IsLatin1(pair) <==> IsLatin1(publicKey) && IsLatin1(secretKey) by {
      assert forall i :: 0 <= i < |publicKey| ==> pair[i] == publicKey[i];
      assert forall i :: 0 <= i < |secretKey| ==> pair[|publicKey| + 1 + i] == secretKey[i];
    }
    match Btoa(pair)
    case Some(token) => Some("Basic " + token)
    case None => None
  }

  /** The JSON body sent to the gateway for one checkout request. */
  function TransactionFor(req: PixRequest): (t: Transaction)
    requires req.customerCpf.Some?
    ensures |t.items| == 1 && t.amount == t.items[0].unitPrice == req.amountCents
    ensures t.items[0].title == ItemTitle && t.items[0].quantity == 1 && !t.items[0].tangible
    ensures t.paymentMethod == "pix" && t.pixExpiresIn == PixExpiresInSeconds
    ensures t.customer.name == req.customerName && t.customer.email == req.customerEmail
    ensures t.customer.document.docType == "cpf"
    ensures t.customer.document.number == DigitsOnly(req.customerCpf.value)
    ensures AllDigits(t.customer.document.number) && |t.customer.document.number| == DigitCount(req.customerCpf.value)
  {
    DigitsOnlyLength(req.customerCpf.value);
    Transaction(
      req.amountCents,
      "pix",
      PixExpiresInSeconds,
      [Item(ItemTitle, req.amountCents, 1, false)],
      Customer(req.customerName, req.customerEmail, Document("cpf", DigitsOnly(req.customerCpf.value))))
  }

  /** The 500 message for a non-ok upstream status. */
  function ApiErrorMessage(status: nat, text: string): (message: string)
    ensures |message| >= |ApiErrorPrefix| + |text| + 4
    ensures message[..|ApiErrorPrefix|] == ApiErrorPrefix && message[|message| - |text|..] == text
  {
    ApiErrorPrefix + NatToDecimal(status) + " - " + text
  }

  /** The reply for the gateway's answer to a call that was made. */
  function ReplyFor(u: Upstream): (r: Reply)
    ensures r.Preflight? == false
    ensures r.Success? <==> u.Responded? && IsOk(u.status) && u.parsed.Value?
    ensures r.Success? ==> r.data == u.parsed.json
  {
    match u
    case NetworkFailure(message) => ServerError(message)
    case Responded(status, text, parsed) =>
      if !IsOk(status) then ServerError(ApiErrorMessage(status, text))
      else match parsed
        case Value(data) => Success(data)
        case SyntaxError(message) => ServerError(message)
  }

  /** The `serve` handler for one request. */
  function Handle(httpMethod: string, body: RequestBody, env: Env, upstream: Upstream): (h: Handled)
    ensures httpMethod == "OPTIONS" ==> h == Handled(None, Preflight)
    ensures h.sent.Some? <==>
              httpMethod != "OPTIONS" && body.Body? && CredentialsConfigured(env)
              && IsLatin1(env.publicKey.value) && IsLatin1(env.secretKey.value)
              && body.request.customerCpf.Some?
    ensures h.sent.Some? ==>
              h.sent.value.url == TransactionsUrl
              && Some(h.sent.value.authorization) == BasicAuthorization(env.publicKey.value, env.secretKey.value)
              && h.sent.value.body == TransactionFor(body.request)
              && h.reply == ReplyFor(upstream)
    ensures httpMethod != "OPTIONS" && h.sent.None? ==> h.reply.ServerError?
  {
    if httpMethod == "OPTIONS" then Handled(None, Preflight)
    else match body
      case Malformed(message) => Handled(None, ServerError(message))
      case Body(req) =>
        if !CredentialsConfigured(env) then Handled(None, ServerError(CredentialsMissing))
        else match BasicAuthorization(env.publicKey.value, env.secretKey.value)
          case None => Handled(None, ServerError(Latin1Error))
          case Some(authorization) =>
            if req.customerCpf.None? then Handled(None, ServerError(CpfTypeError))
            else Handled(Some(GatewayRequest(TransactionsUrl, authorization, TransactionFor(req))), ReplyFor(upstream))
  }

  /** With either key unset or empty, no gateway call is made and the reply is a 500 naming the missing configuration. */
  lemma MissingCredentialsNoCall(httpMethod: string, req: PixRequest, env: Env, upstream: Upstream)
    requires httpMethod != "OPTIONS" && !CredentialsConfigured(env)
    ensures Handle(httpMethod, Body(req), env, upstream) == Handled(None, ServerError(CredentialsMissing))
    ensures StatusOf(Handle(httpMethod, Body(req), env, upstream).reply) == 500
  {
  }

  /** The credentials sent never depend on the request body: only on the two environment keys. */
  lemma CredentialsIndependentOfBody(httpMethod: string, b1: RequestBody, b2: RequestBody, env: Env, u1: Upstream, u2: Upstream)
    requires Handle(httpMethod, b1, env, u1).sent.Some? && Handle(httpMethod, b2, env, u2).sent.Some?
    ensures Handle(httpMethod, b1, env, u1).sent.value.authorization == Handle(httpMethod, b2, env, u2).sent.value.authorization
  {
  }

  // ---- Reading the credential back, as the gateway does (RFC 7617, section 2) ----

  /** Splits user-id and password at the first colon. */
  function SplitAtColon(s: string): (r: Option<(string, string)>)
    ensures r.Some? ==> ':' !in r.value.0 && s == r.value.0 + ":" + r.value.1
  {
    if s == [] then None
    else if s[0] == ':' then Some(([], s[1..]))
    else match SplitAtColon(s[1..])
      case None => None
      case Some((user, password)) => Some(([s[0]] + user, password))
  }

  lemma {:induction false} SplitAtColonJoin(user: string, password: string)
    requires ':' !in user
    ensures SplitAtColon(user + ":" + password) == Some((user, password))
  {
    var s := user + ":" + password;
    if user != [] {
      assert s[1..] == user[1..] + ":" + password;
      SplitAtColonJoin(user[1..], password);
      assert [user[0]] + user[1..] == user;
    } else {
      assert s[1..] == password;
    }
  }

  /** The gateway's reading of a Basic `Authorization` header: user-id and password. */
  function ParseBasic(header: string): Option<(string, string)>
  {
    if |header| < 6 || header[..6] != "Basic " then None
    else match Atob(header[6..])
      case None => None
      case Some(pair) => SplitAtColon(pair)
  }

  /** The header carries the key pair: decoded per RFC 4648 and split per RFC 7617 it gives back the public and secret key, provided the public key has no colon (RFC 7617 forbids one in a user-id). */
  lemma BasicAuthorizationRoundTrip(publicKey: string, secretKey: string)
    requires IsLatin1(publicKey) && IsLatin1(secretKey) && ':' !in publicKey
    ensures ParseBasic(BasicAuthorization(publicKey, secretKey).value) == Some((publicKey, secretKey))
  {
    var pair := publicKey + ":" + secretKey;
    var header := BasicAuthorization(publicKey, secretKey).value;
    AtobBtoa(pair);
    assert header[6..] == Btoa(pair).value;
    SplitAtColonJoin(publicKey, secretKey);
  }

  // ---- Reading the error message back ----

  /** Length of the run of digits at the start of `s`. */
  function LeadingDigits(s: string): (n: nat)
    ensures n <= |s| && AllDigits(s[..n])
    ensures n < |s| ==> !IsDigit(s[n])
  {
    if s == [] || !IsDigit(s[0]) then 0
    else
      var n := 1 + LeadingDigits(s[1..]);
      assert s[..n] == [s[0]] + s[1..][..n - 1];
      n
  }

  lemma {:induction false} LeadingDigitsOf(d: string, rest: string)
    requires AllDigits(d) && (rest == [] || !IsDigit(rest[0]))
    ensures LeadingDigits(d + rest) == |d|
  {
    if d == [] {
      assert d + rest == rest;
    } else {
      assert (d + rest)[1..] == d[1..] + rest;
      LeadingDigitsOf(d[1..], rest);
    }
  }

  /** Recovers the upstream status and body text from a 500 message built from a rejected gateway call. */
  function ParseApiError(message: string): Option<(nat, string)>
  {
    var p := |ApiErrorPrefix|;
    if |message| < p || message[..p] != ApiErrorPrefix then None
    else
      var tail := message[p..];
      var n := LeadingDigits(tail);
      if n == 0 || |tail| < n + 3 || tail[n..n + 3] != " - " then None
      else Some((DecimalValue(tail[..n]), tail[n + 3..]))
  }

  /** A non-ok upstream status gives a 500 whose message carries that status and the upstream body text. */
  lemma RejectedCallReportsStatusAndBody(status: nat, text: string, parsed: Parsed)
    requires !IsOk(status)
    ensures ReplyFor(Responded(status, text, parsed)).ServerError?
    ensures ParseApiError(ReplyFor(Responded(status, text, parsed)).message) == Some((status, text))
  {
    var d := NatToDecimal(status);
    var m := ApiErrorMessage(status, text);
    var p := |ApiErrorPrefix|;
    assert m[..p] == ApiErrorPrefix;
    var tail := m[p..];
    assert tail == d + (" - " + text);
    LeadingDigitsOf(d, " - " + text);
    assert tail[..|d|] == d;
    assert tail[|d|..|d| + 3] == " - ";
    assert tail[|d| + 3..] == text;
    DecimalRoundTrip(status);
  }

  /** On success the upstream JSON is returned unchanged with status 200. */
  lemma SuccessPassesThrough(status: nat, text: string, data: Json)
    requires IsOk(status)
    ensures ReplyFor(Responded(status, text, Value(data))) == Success(data)
    ensures StatusOf(ReplyFor(Responded(status, text, Value(data)))) == 200
  {
  }
}
