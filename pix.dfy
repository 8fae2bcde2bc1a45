/**
 * The PIX display component: it asks the `create-pix` function for a code,
 * shows it as a QR code and as copy-and-paste text, counts down the ten
 * minutes it gives the payer, and hides both once the countdown reaches zero.
 *
 * Time is an explicit `now` in milliseconds; the one-second interval and the
 * three-second "copied" timer are calls the environment makes.
 */
module Pix {
  import opened Wrappers
  import opened Digits
  import opened Json
  import opened Customer

  const SecondMs := 1000
  const MinuteMs := 60000
  const HourMs := 3600000
  /** The code is shown for ten minutes after the creation result arrives. */
  const ValidityMs := 600000
  /** The "copied" indicator is cleared this long after a copy. */
  const CopiedResetMs := 3000
  const ExpiredText := "00:00"
  const CreationFailed := "Erro ao criar pagamento PIX"
  const PixDataMissing := "Dados do PIX não foram retornados pela API"

  /** The component's props: the amount in centavos, the customer fields and the payment link code, if any. */
  datatype PixProps = PixProps(amountCents: int, customerName: string, customerEmail: string, customerCpf: string, paymentLinkCode: Option<string>)

  /** The props both checkout pages pass: the name falls back to "Cliente", e-mail and CPF to "". */
  function PropsFor(customer: Option<CustomerData>, amountCents: int, linkCode: Option<string>): (p: PixProps)
    ensures p.amountCents == amountCents && p.paymentLinkCode == linkCode
    ensures p.customerName != ""
    ensures customer.None? ==> p.customerName == "Cliente" && p.customerEmail == "" && p.customerCpf == ""
    ensures customer.Some? ==> p.customerName == OrDefault(customer.value.name, "Cliente")
    ensures customer.Some? ==> p.customerEmail == customer.value.email && p.customerCpf == customer.value.cpf
  {
    match customer
    case None => PixProps(amountCents, "Cliente", "", "", linkCode)
    case Some(d) => PixProps(amountCents, OrDefault(d.name, "Cliente"), OrDefault(d.email, ""), OrDefault(d.cpf, ""), linkCode)
  }

  // ---- The countdown text ----

  /** Whole minutes left within the hour. */
  function MinutesOf(diff: int): (m: nat)
    requires diff > 0
    ensures m < 60
  {
    (diff % HourMs) / MinuteMs
  }

  /** Whole seconds left within the minute. */
  function SecondsOf(diff: int): (s: nat)
    requires diff > 0
    ensures s < 60
  {
    (diff % MinuteMs) / SecondMs
  }

  /** The timer text for a positive number of milliseconds left. */
  function CountdownText(diff: int): (text: string)
    requires diff > 0
    ensures |text| == 5 && text[2] == ':' && AllDigits(text[..2]) && AllDigits(text[3..])
    ensures DecimalValue(text[..2]) == MinutesOf(diff) && DecimalValue(text[3..]) == SecondsOf(diff)
  {
    PadTwoRoundTrip(MinutesOf(diff));
    PadTwoRoundTrip(SecondsOf(diff));
    var text := PadTwo(MinutesOf(diff)) + ":" + PadTwo(SecondsOf(diff));
    assert text[..2] == PadTwo(MinutesOf(diff)) && text[3..] == PadTwo(SecondsOf(diff));
    text
  }

  /** Reads an `MM:SS` text back into minutes and seconds. */
  function ParseClock(text: string): Option<(nat, nat)>
  {
    if |text| == 5 && text[2] == ':' && AllDigits(text[..2]) && AllDigits(text[3..])
    then Some((DecimalValue(text[..2]), DecimalValue(text[3..])))
    else None
  }

  lemma WholeSeconds(diff: int)
    requires diff > 0
    ensures 60 * MinutesOf(diff) + SecondsOf(diff) == (diff % HourMs) / SecondMs
  {
    var r := diff % HourMs;
    var m, q := r / MinuteMs, r % MinuteMs;
    assert r == MinuteMs * m + q;
    assert diff % MinuteMs == q by {
      var h := diff / HourMs;
      assert diff == HourMs * h + r;
      assert diff == MinuteMs * (60 * h + m) + q;
    }
    var s, w := q / SecondMs, q % SecondMs;
    assert q == SecondMs * s + w;
    assert r == SecondMs * (60 * m + s) + w;
  }

  /**
   * The timer text is always five characters `MM:SS`, both fields below 60;
   * read back, it is the whole seconds left with whole hours dropped.
   */
  lemma CountdownTextMeaning(diff: int)
    requires diff > 0
    ensures |CountdownText(diff)| == 5 && CountdownText(diff)[2] == ':'
    ensures ParseClock(CountdownText(diff)) == Some((MinutesOf(diff), SecondsOf(diff)))
    ensures 60 * MinutesOf(diff) + SecondsOf(diff) == (diff % HourMs) / SecondMs
  {
    var m, s := MinutesOf(diff), SecondsOf(diff);
    var text := CountdownText(diff);
    PadTwoRoundTrip(m);
    PadTwoRoundTrip(s);
    assert text[..2] == PadTwo(m);
    assert text[3..] == PadTwo(s);
    WholeSeconds(diff);
  }

  /** Under one second left the text already reads "00:00", though the code has not expired. */
  lemma LastSecondReadsZero(diff: int)
    requires 0 < diff < SecondMs
    ensures CountdownText(diff) == ExpiredText
  {
    assert MinutesOf(diff) == 0 && SecondsOf(diff) == 0;
  }

  /** Whole hours do not show: an hour more left gives the same text. */
  lemma HoursDropped(diff: int)
    requires diff > 0
    ensures CountdownText(diff + HourMs) == CountdownText(diff)
  {
    assert (diff + HourMs) % HourMs == diff % HourMs;
    assert (diff + HourMs) % MinuteMs == diff % MinuteMs;
  }

  /** The two countdown fields one tick updates. */
  datatype Countdown = Countdown(isExpired: bool, timeRemaining: string)

  /** One run of `updateCountdown` against an expiration: expire at or after it, otherwise show the time left. */
  function NextCountdown(c: Countdown, expiration: int, now: int): (r: Countdown)
    ensures r.isExpired <==> c.isExpired || expiration <= now
    ensures expiration <= now ==> r.timeRemaining == ExpiredText
    ensures expiration > now ==> ParseClock(r.timeRemaining) == Some((MinutesOf(expiration - now), SecondsOf(expiration - now)))
    ensures |r.timeRemaining| == 5
  {
    var diff := expiration - now;
    if diff <= 0 then Countdown(true, ExpiredText)
    else
      CountdownTextMeaning(diff);
      Countdown(c.isExpired, CountdownText(diff))
  }

  /** Once a tick has found the code expired, later ticks against the same expiration change nothing. */
  lemma ExpiredTicksAreStable(c: Countdown, expiration: int, t1: int, t2: int)
    requires expiration <= t1 <= t2
    ensures NextCountdown(NextCountdown(c, expiration, t1), expiration, t2) == NextCountdown(c, expiration, t1)
  {
  }

  // ---- The creation result ----

  /** What `supabase.functions.invoke` resolved to: the response data (`None` for null) and the message of its error, if any. */
  datatype InvokeResult = InvokeResult(data: Option<Json>, functionError: Option<string>)

  /** How one creation attempt ends: with an error message, or with the PIX data and the code it carried, if any. */
  datatype Creation = CreationError(message: string) | Created(code: Option<string>)

  function CreationOutcome(result: InvokeResult): (o: Creation)
    ensures o.CreationError? ==> o.message != ""
    ensures result.functionError.Some? ==> o == CreationError(OrDefault(result.functionError.value, CreationFailed))
    ensures result.functionError.None? && !Truthy(Member(result.data, "pix")) ==> o == CreationError(PixDataMissing)
    ensures o.Created? <==> result.functionError.None? && Truthy(Member(result.data, "pix"))
    ensures o.Created? && o.code.Some? ==>
              o.code.value != "" && Member(Member(result.data, "pix"), "qrcode") == Some(JString(o.code.value))
    ensures o.Created? && o.code.None? ==> !Truthy(Member(Member(result.data, "pix"), "qrcode")) || !Member(Member(result.data, "pix"), "qrcode").value.JString?
  {
    match result.functionError
    case Some(message) => CreationError(OrDefault(message, CreationFailed))
    case None =>
      var pix := Member(result.data, "pix");
      if !Truthy(pix) then CreationError(PixDataMissing)
      else Created(NonEmptyString(Member(pix, "qrcode")))
  }

  /** What the component renders. */
  datatype Screen =
    | Loading
    | Failed(message: string)
    | Ready(timer: string, qrCode: Option<string>, copyCode: Option<string>, copied: bool, expiredNotice: bool)

  class PixPayment {
    var props: PixProps
    var copied: bool
    var loading: bool
    var pixCode: string
    var qrCodeData: string
    var error: Option<string>
    var expirationDate: Option<int>
    var timeRemaining: string
    var isExpired: bool
    /** Due times of the pending "copied" reset timers. */
    var copyResetsDue: seq<int>

    ghost predicate Valid()
      reads this
    {
      && pixCode == qrCodeData
      && (error.Some? ==> error.value != "")
      && (isExpired ==> expirationDate.Some?)
      && (timeRemaining == "" || |timeRemaining| == 5)
      && (copied ==> copyResetsDue != [])
    }

    constructor (p: PixProps)
      ensures Valid()
      ensures props == p && loading && !copied && !isExpired
      ensures pixCode == "" && qrCodeData == "" && error.None? && expirationDate.None?
      ensures timeRemaining == "" && copyResetsDue == []
    {
      props := p;
      copied := false;
      loading := true;
      pixCode := "";
      qrCodeData := "";
      error := None;
      expirationDate := None;
      timeRemaining := "";
      isExpired := false;
      copyResetsDue := [];
    }

    /** The creation effect starts (on mount and whenever the props change): loading, no error; nothing else is reset. */
    method StartCreation(p: PixProps)
      requires Valid()
      modifies this
      ensures Valid()
      ensures props == p && loading && error.None?
      ensures copied == old(copied) && pixCode == old(pixCode) && qrCodeData == old(qrCodeData)
      ensures expirationDate == old(expirationDate) && timeRemaining == old(timeRemaining)
      ensures isExpired == old(isExpired) && copyResetsDue == old(copyResetsDue)
    {
      props := p;
      loading := true;
      error := None;
    }

    /**
     * The creation effect finishes with `result` at time `now`: an error sets
     * `error` and nothing else; PIX data stores its code, if it has one, in
     * both code fields and sets the expiration ten minutes ahead. Loading
     * ends either way, and `isExpired` is left as it was.
     */
    method HandleCreationResult(result: InvokeResult, now: int)
      requires Valid()
      modifies this
      ensures Valid()
      ensures !loading
      ensures match CreationOutcome(result)
              case CreationError(message) =>
                error == Some(message) && pixCode == old(pixCode) && expirationDate == old(expirationDate)
              case Created(code) =>
                && error == old(error)
                && pixCode == (if code.Some? then code.value else old(pixCode))
                && expirationDate == Some(now + ValidityMs)
      ensures qrCodeData == pixCode
      ensures props == old(props) && copied == old(copied) && isExpired == old(isExpired)
      ensures timeRemaining == old(timeRemaining) && copyResetsDue == old(copyResetsDue)
    {
      match CreationOutcome(result) {
        case CreationError(message) =>
          error := Some(message);
        case Created(code) =>
          if code.Some? {
            pixCode := code.value;
            qrCodeData := code.value;
          }
          expirationDate := Some(now + ValidityMs);
      }
      loading := false;
    }

    /** One run of the one-second countdown at time `now`; nothing happens before an expiration exists. */
    method Tick(now: int)
      requires Valid()
      modifies this
      ensures Valid()
      ensures old(expirationDate).None? ==> isExpired == old(isExpired) && timeRemaining == old(timeRemaining)
      ensures old(expirationDate).Some? ==>
                Countdown(isExpired, timeRemaining)
                == NextCountdown(Countdown(old(isExpired), old(timeRemaining)), old(expirationDate).value, now)
      ensures old(isExpired) ==> isExpired
      ensures props == old(props) && copied == old(copied) && loading == old(loading) && error == old(error)
      ensures pixCode == old(pixCode) && qrCodeData == old(qrCodeData) && expirationDate == old(expirationDate)
      ensures copyResetsDue == old(copyResetsDue)
    {
      if expirationDate.Some? {
        var next := NextCountdown(Countdown(isExpired, timeRemaining), expirationDate.value, now);
        isExpired := next.isExpired;
        timeRemaining := next.timeRemaining;
      }
    }

    /**
     * The copy button at time `now`: with no code nothing happens; otherwise
     * the code goes to the clipboard, `copied` is set, and a reset is
     * scheduled three seconds later.
     */
    method HandleCopy(now: int) returns (clipboard: Option<string>)
      requires Valid()
      modifies this
      ensures Valid()
      ensures clipboard.Some? <==> old(pixCode) != ""
      ensures clipboard.Some? ==> clipboard.value == pixCode && copied && copyResetsDue == old(copyResetsDue) + [now + CopiedResetMs]
      ensures clipboard.None? ==> copied == old(copied) && copyResetsDue == old(copyResetsDue)
      ensures props == old(props) && loading == old(loading) && error == old(error) && isExpired == old(isExpired)
      ensures pixCode == old(pixCode) && qrCodeData == old(qrCodeData) && expirationDate == old(expirationDate)
      ensures timeRemaining == old(timeRemaining)
    {
      if pixCode == "" {
        return None;
      }
      clipboard := Some(pixCode);
      copied := true;
      copyResetsDue := copyResetsDue + [now + CopiedResetMs];
    }

    /** The reset timers due by `now` fire: each clears `copied`; the others stay pending. */
    method CopyTimersFire(now: int)
      requires Valid()
      modifies this
      ensures Valid()
      ensures copyResetsDue == Pending(old(copyResetsDue), now)
      ensures copied == (old(copied) && Pending(old(copyResetsDue), now) == old(copyResetsDue))
      ensures props == old(props) && loading == old(loading) && error == old(error) && isExpired == old(isExpired)
      ensures pixCode == old(pixCode) && qrCodeData == old(qrCodeData) && expirationDate == old(expirationDate)
      ensures timeRemaining == old(timeRemaining)
    {
      var rest := Pending(copyResetsDue, now);
      if rest != copyResetsDue {
        copied := false;
      }
      copyResetsDue := rest;
    }

    /** What is rendered: a loader, the error, or the timer with the QR code and the copy-and-paste code while the code exists and has not expired. */
    function View(): (s: Screen)
      reads this
      ensures loading <==> s.Loading?
      ensures !loading ==> (s.Failed? <==> error.Some? && error.value != "")
      ensures s.Failed? ==> s.message == error.value
      ensures s.Ready? ==> s.timer == timeRemaining && s.copied == copied && s.expiredNotice == isExpired
      ensures s.Ready? && s.qrCode.Some? ==> s.qrCode.value == qrCodeData && qrCodeData != "" && !isExpired
      ensures s.Ready? && s.copyCode.Some? ==> s.copyCode.value == pixCode && pixCode != "" && !isExpired
      ensures s.Ready? ==> (s.qrCode.None? <==> qrCodeData == "" || isExpired)
      ensures s.Ready? ==> (s.copyCode.None? <==> pixCode == "" || isExpired)
    {
      if loading then Loading
      else if error.Some? && error.value != "" then Failed(error.value)
      else Ready(timeRemaining,
                 if qrCodeData != "" && !isExpired then Some(qrCodeData) else None,
                 if pixCode != "" && !isExpired then Some(pixCode) else None,
                 copied,
                 isExpired)
    }
  }

  /** The due times of the timers still pending at `now`. */
  function Pending(due: seq<int>, now: int): (r: seq<int>)
    ensures |r| <= |due|
    ensures forall i :: 0 <= i < |r| ==> r[i] > now && r[i] in due
    ensures forall i :: 0 <= i < |due| && due[i] > now ==> due[i] in r
    ensures r == due <==> forall i :: 0 <= i < |due| ==> due[i] > now
  {
    if due == [] then []
    else if due[0] <= now then Pending(due[1..], now)
    else [due[0]] + Pending(due[1..], now)
  }
}
