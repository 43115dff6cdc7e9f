/** The browser's request builder for `POST /api/create-payment`
    (`processCheckout` in services/mockService.ts): cookie lookup, click-id
    attribution, the line items, the request body and the mapping of the
    HTTP reply to a result or a thrown error. */
module CheckoutService {
  import opened Base
  import opened Text
  import opened Wire
  import opened OrderForm

  /** What the page can read about its surroundings: the location, the
      `fbclid` query parameter, `document.cookie`, the clock and the user
      agent. */
  datatype Browser = Browser(
    href: Option<string>,
    fbclid: Option<string>,
    cookies: string,
    nowMs: nat,
    userAgent: Option<string>)

  /** The trimmed `;`-separated parts of a cookie string. */
  function CookieParts(cookies: string): (parts: seq<string>)
    ensures |parts| == |Split(cookies, ';')|
    ensures forall k :: 0 <= k < |parts| ==> parts[k] == Trim(Split(cookies, ';')[k])
  {
    var raw := Split(cookies, ';');
    seq(|raw|, k requires 0 <= k < |raw| => Trim(raw[k]))
  }

  /** The index of the first part that starts with `prefix`, or `|parts|`. */
  function FirstWithPrefix(parts: seq<string>, prefix: string): (i: nat)
    ensures i <= |parts|
    ensures forall j :: 0 <= j < i ==> !StartsWith(parts[j], prefix)
    ensures i < |parts| ==> StartsWith(parts[i], prefix)
  {
    if parts == [] then 0
    else if StartsWith(parts[0], prefix) then 0
    else 1 + FirstWithPrefix(parts[1..], prefix)
  }

  /** `getCookie(name)`: the decoded rest of the first trimmed part that starts
      with `name=`; `undefined` when there is none or when decoding throws
      (`decode` answers `None`). */
  function GetCookie(cookies: string, name: string, decode: string -> Option<string>): (r: Option<string>)
    ensures var parts := CookieParts(cookies);
      (forall j :: 0 <= j < |parts| ==> !StartsWith(parts[j], name + "=")) ==> r.None?
    ensures var parts := CookieParts(cookies);
      forall i :: 0 <= i < |parts| && StartsWith(parts[i], name + "=")
        && (forall j :: 0 <= j < i ==> !StartsWith(parts[j], name + "="))
        ==> r == decode(parts[i][|name| + 1..])
  {
    var parts := CookieParts(cookies);
    var prefix := name + "=";
    var i := FirstWithPrefix(parts, prefix);
    if i == |parts| then None else decode(parts[i][|prefix|..])
  }

  /** The `fbc` click cookie synthesized from a click id: `fb.1.{seconds}.{fbclid}`. */
  function SynthesizedFbc(nowMs: nat, fbclid: string): string {
    "fb.1." + NatToString(nowMs / 1000) + "." + fbclid
  }

  /** `getFbClickData()`: the existing `_fbc` cookie wins when it is truthy;
      otherwise a truthy click id yields a synthesized value; otherwise there
      is none. `fbp` is the `_fbp` cookie. */
  function FbClickData(b: Browser, decode: string -> Option<string>): (m: Meta)
    ensures m.url == b.href && m.fbclid == b.fbclid && m.userAgent == b.userAgent
    ensures m.fbp == GetCookie(b.cookies, "_fbp", decode)
    ensures Present(GetCookie(b.cookies, "_fbc", decode)) ==> m.fbc == GetCookie(b.cookies, "_fbc", decode)
    ensures !Present(GetCookie(b.cookies, "_fbc", decode)) && Present(b.fbclid) ==>
      m.fbc == Some(SynthesizedFbc(b.nowMs, b.fbclid.value))
    ensures !Present(GetCookie(b.cookies, "_fbc", decode)) && !Present(b.fbclid) ==> m.fbc == None
  {
    var fbp := GetCookie(b.cookies, "_fbp", decode);
    var existing := GetCookie(b.cookies, "_fbc", decode);
    var fbc := if Present(existing) then existing
      else if Present(b.fbclid) then Some(SynthesizedFbc(b.nowMs, b.fbclid.value))
      else None;
    Meta(b.href, b.fbclid, fbp, fbc, b.userAgent)
  }

  /** A synthesized `fbc` splits on `.` into `fb`, `1`, the decimal seconds
      and the click id, so the timestamp reads back exactly (when the click id
      holds no `.`). */
  lemma SynthesizedFbcShape(nowMs: nat, fbclid: string)
    requires '.' !in fbclid
    ensures Split(SynthesizedFbc(nowMs, fbclid), '.') == ["fb", "1", NatToString(nowMs / 1000), fbclid]
    ensures ParseNat(Split(SynthesizedFbc(nowMs, fbclid), '.')[2]) == nowMs / 1000
  {
    var secs := NatToString(nowMs / 1000);
    assert forall k :: 0 <= k < |secs| ==> secs[k] != '.';
    var parts := ["fb", "1", secs, fbclid];
    assert Join(parts[3..], ".") == fbclid;
    assert Join(parts[2..], ".") == secs + "." + fbclid by {
      assert parts[2..][1..] == parts[3..];
    }
    assert Join(parts[1..], ".") == "1" + "." + secs + "." + fbclid by {
      assert parts[1..][1..] == parts[2..];
    }
    assert Join(parts, ".") == SynthesizedFbc(nowMs, fbclid) by {
      assert parts[1..] == parts[1..];
    }
    SplitJoin(parts, '.');
    ParseNatToString(nowMs / 1000);
  }

  const MainItem: Item := Item(Some(MainProductId), Some(MainProductName), Some(MainProductPriceCents))
  const UpsellItem: Item := Item(Some(UpsellProductId), Some(UpsellProductName), Some(UpsellProductPriceCents))

  /** The line items: the main product, followed by the upsell only when it
      was chosen. */
  function Items(hasUpsell: bool): (items: seq<Item>)
    ensures |items| >= 1 && items[0] == MainItem
    ensures hasUpsell <==> |items| == 2
    ensures hasUpsell ==> items[1] == UpsellItem
  {
    [MainItem] + (if hasUpsell then [UpsellItem] else [])
  }

  /** The request body: name and e-mail as typed, phone and document reduced
      to their digits, and the card block only for card payments. */
  function RequestOf(form: Form, paymentMethod: PaymentMethod, hasUpsell: bool, card: Option<CardData>, meta: Meta): (body: RequestBody)
    ensures body.user == Some(User(Some(form.name), Some(form.email), Some(DigitsOnly(form.phone)), Some(DigitsOnly(form.document))))
    ensures body.items == Some(Items(hasUpsell))
    ensures body.paymentMethod == Some(paymentMethod.Wire())
    ensures body.card == (if paymentMethod == CreditCard then card else None)
    ensures body.meta == Some(meta)
  {
    RequestBody(
      Some(User(Some(form.name), Some(form.email), Some(DigitsOnly(form.phone)), Some(DigitsOnly(form.document)))),
      Some(Items(hasUpsell)),
      Some(paymentMethod.Wire()),
      if paymentMethod == CreditCard then card else None,
      Some(meta))
  }

  /** The body of an HTTP reply: JSON that parsed, or the parse failure's message. */
  datatype JsonBody = Unparseable(parseError: string) | Parsed(data: ResponseJson)

  /** What `fetch('/api/create-payment', …)` gives back. */
  datatype HttpReply =
    | NetworkFailure(message: string)
    | HttpResponse(ok: bool, status: nat, json: JsonBody)

  /** What `processCheckout` resolves to. */
  datatype CheckoutResult = CheckoutResult(
    success: bool,
    message: string,
    paymentId: Option<string>,
    status: Option<string>,
    statusDetail: Option<string>,
    qrCode: Option<string>,
    qrCodeBase64: Option<string>,
    ticketUrl: Option<string>)

  /** A value thrown by `processCheckout`: an `Error` with a message, or
      something else. */
  datatype Thrown = ErrorObject(message: string) | NonError

  datatype CheckoutOutcome = Returned(result: CheckoutResult) | Threw(error: Thrown)

  /** The request that was sent, and what came of it. */
  datatype Checkout = Checkout(request: RequestBody, outcome: CheckoutOutcome)

  /** The message thrown for a non-ok reply: the body's `error`, else its
      `message`, else `Payment creation failed ({status})`. */
  function FailureMessage(status: nat, json: JsonBody): (msg: string)
    ensures json.Parsed? && Present(json.data.error) ==> msg == json.data.error.value
    ensures json.Parsed? && !Present(json.data.error) && Present(json.data.message) ==> msg == json.data.message.value
    ensures (json.Unparseable? || (!Present(json.data.error) && !Present(json.data.message))) ==>
      msg == "Payment creation failed (" + NatToString(status) + ")"
  {
    var fromBody := if json.Parsed? then OrElse(json.data.error, json.data.message) else None;
    if Present(fromBody) then fromBody.value else "Payment creation failed (" + NatToString(status) + ")"
  }

  /** The success/failure message, chosen by the `success` flag alone. */
  function ResultMessage(success: bool): string {
    if success then "Pagamento iniciado com sucesso!" else "Falha ao iniciar pagamento."
  }

  /** `processCheckout(formData, paymentMethod, hasUpsell, cardPaymentData)`. */
  function ProcessCheckout(
    form: Form, paymentMethod: PaymentMethod, hasUpsell: bool, card: Option<CardData>,
    browser: Browser, decode: string -> Option<string>, reply: HttpReply): (c: Checkout)
    ensures c.request == RequestOf(form, paymentMethod, hasUpsell, card, FbClickData(browser, decode))
    ensures reply.NetworkFailure? ==> c.outcome == Threw(ErrorObject(reply.message))
    ensures reply.HttpResponse? && !reply.ok ==> c.outcome == Threw(ErrorObject(FailureMessage(reply.status, reply.json)))
    ensures reply.HttpResponse? && reply.ok && reply.json.Unparseable? ==> c.outcome == Threw(ErrorObject(reply.json.parseError))
    ensures reply.HttpResponse? && reply.ok && reply.json.Parsed? ==>
      var d := reply.json.data;
      c.outcome.Returned?
      && c.outcome.result.success == d.success
      && c.outcome.result.message == ResultMessage(d.success)
      && c.outcome.result.paymentId == d.paymentId
      && c.outcome.result.status == d.status
      && c.outcome.result.statusDetail == d.statusDetail
      && c.outcome.result.qrCode == d.qrCode
      && c.outcome.result.qrCodeBase64 == d.qrCodeBase64
      && c.outcome.result.ticketUrl == d.ticketUrl
  {
    var request := RequestOf(form, paymentMethod, hasUpsell, card, FbClickData(browser, decode));
    var outcome :=
      match reply
      case NetworkFailure(m) => Threw(ErrorObject(m))
      case HttpResponse(ok, status, json) =>
        if !ok then Threw(ErrorObject(FailureMessage(status, json)))
        else
          match json
          case Unparseable(m) => Threw(ErrorObject(m))
          case Parsed(d) =>
            Returned(CheckoutResult(d.success, ResultMessage(d.success), d.paymentId, d.status, d.statusDetail, d.qrCode, d.qrCodeBase64, d.ticketUrl));
    Checkout(request, outcome)
  }
}
