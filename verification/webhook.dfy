/** The payment notification endpoint (api/webhooks/mercadopago.js): it
    looks the notified payment up, and for an approved one sends the
    server-side Purchase conversion and provisions the buyer in the member
    area. The gateway's and the member area's replies, the clock and the
    hash are parameters. */
module Webhook {
  import opened Base
  import opened Text
  import opened Wire
  import opened Conversion
  import opened Gateway

  /** The environment variables the endpoint reads. */
  datatype WebhookEnv = WebhookEnv(
    mpAccessToken: Option<string>,
    siteUrl: Option<string>,
    memboxUrl: Option<string>,
    memboxCredential: Option<string>,
    memboxProductName: Option<string>,
    memboxOrderBumpId: Option<string>,
    meta: MetaEnv)

  /** Where a notification may carry the payment id: `body.data.id`,
      `body.data.payment_id` and the `id` query parameter; `None` is
      `null` or `undefined`. */
  datatype Notification = Notification(dataId: Option<string>, dataPaymentId: Option<string>, queryId: Option<string>)

  /** What looking the payment up gave: a thrown error, or the parsed JSON
      with the response's `ok`. */
  datatype FetchReply = FetchThrew(thrown: Thrown) | Fetched(ok: bool, payment: PaymentRecord)

  /** What the member-area POST gave: a thrown error, or the status and body
      text. */
  datatype MemboxReply = MemboxThrew(thrown: Thrown) | MemboxAnswered(ok: bool, status: nat, text: string)

  /** The answer bodies. */
  datatype WebhookBody =
    | PlainText(text: string)
    | MissingToken
    | Ignored
    | MpError(payment: PaymentRecord)
    | NotApproved(status: Option<string>)
    | MemboxSkipped
    | MemboxSent(memboxResult: string)
    | Failed(error: string)

  datatype WebhookResponse = WebhookResponse(status: nat, allow: Option<string>, body: WebhookBody)

  /** The answer and the outbound calls made to produce it. */
  datatype WebhookHandled = WebhookHandled(response: WebhookResponse, effects: seq<ServerEffect>)

  const DefaultProductName: string := "Mestres do Tráfego"
  const DefaultOrderBumpId: string := "main-prod-001"
  const MissingMemboxEnvMessage: string := "Missing MEMBOX_WEBHOOK_URL or MEMBOX_WEBHOOK_CREDENTIAL"
  const MemboxFailurePrefix: string := "Membox webhook failed: "

  /** `data.id ?? data.payment_id ?? query.id`, kept only when truthy: the
      first value that is not null decides, even when it is empty. */
  function PaymentIdOf(n: Notification): (r: Option<string>)
    ensures r.Some? ==> r.value != []
    ensures n.dataId.Some? ==> r == Truthy(n.dataId)
    ensures n.dataId.None? && n.dataPaymentId.Some? ==> r == Truthy(n.dataPaymentId)
    ensures n.dataId.None? && n.dataPaymentId.None? ==> r == Truthy(n.queryId)
  {
    var id := if n.dataId.Some? then n.dataId else if n.dataPaymentId.Some? then n.dataPaymentId else n.queryId;
    Truthy(id)
  }

  /** An empty `data.id` is not skipped over: the notification is ignored
      even when a later field holds an id. */
  lemma EmptyIdShadowsFallbacks(n: Notification)
    requires n.dataId == Some("")
    ensures PaymentIdOf(n).None?
  {
  }

  /** The buyer recorded in a payment's metadata. */
  function CustomerOf(md: Option<Metadata>): (u: User)
    ensures md.None? ==> u == User(None, None, None, None)
    ensures md.Some? ==>
              u == User(md.value.customerName, md.value.customerEmail, md.value.customerPhone, md.value.customerDocument)
  {
    match md
    case None => User(None, None, None, None)
    case Some(m) => User(m.customerName, m.customerEmail, m.customerPhone, m.customerDocument)
  }

  /** The attribution data recorded in a payment's metadata. */
  function MetaOf(md: Option<Metadata>): (m: Meta)
    ensures md.None? ==> m == Meta(None, None, None, None, None)
    ensures md.Some? ==> m == Meta(md.value.metaUrl, md.value.metaFbclid, md.value.metaFbp, md.value.metaFbc, md.value.metaUa)
  {
    match md
    case None => Meta(None, None, None, None, None)
    case Some(x) => Meta(x.metaUrl, x.metaFbclid, x.metaFbp, x.metaFbc, x.metaUa)
  }

  /** `Number(payment.transaction_amount ?? payment.metadata.transaction_amount)` */
  function AmountOf(p: PaymentRecord): (v: JsNum)
    ensures p.transactionAmount.Some? ==> v == p.transactionAmount.value
    ensures p.transactionAmount.None? && p.metadata.Some? ==> v == ToNumber(p.metadata.value.transactionAmount)
    ensures p.transactionAmount.None? && p.metadata.None? ==> v.NaN?
  {
    if p.transactionAmount.Some? then p.transactionAmount.value
    else if p.metadata.Some? then ToNumber(p.metadata.value.transactionAmount)
    else NaN
  }

  /** `Number(v.toFixed(2))` in cents: the value rounded to the nearest cent. */
  function CentsOf(v: real): (c: int)
    ensures (c as real) - 0.5 <= v * 100.0 < (c as real) + 0.5
  {
    (v * 100.0 + 0.5).Floor
  }

  /** An amount that came from whole cents converts back to the same cents. */
  lemma CentsOfCents(c: int)
    ensures CentsOf(c as real / 100.0) == c
  {
    assert (c as real / 100.0) * 100.0 == c as real;
  }

  /** The conversion arguments built from a fetched payment. */
  function PaymentPurchaseArgs(env: WebhookEnv, p: PaymentRecord, peer: Peer): (a: PurchaseArgs)
    requires AmountOf(p).Finite?
    ensures a.paymentId == p.id && a.user == Some(CustomerOf(p.metadata)) && a.meta == Some(MetaOf(p.metadata))
    ensures a.items == (if p.metadata.Some? then p.metadata.value.items else None)
    ensures a.valueCents == CentsOf(AmountOf(p).value) && a.currency == Currency
    ensures a.eventSourceUrl == env.siteUrl && a.clientUserAgent == MetaOf(p.metadata).userAgent
    ensures a.clientIpAddress == ClientIp(peer)
  {
    PurchaseArgs(
      p.id, Some(CustomerOf(p.metadata)), if p.metadata.Some? then p.metadata.value.items else None,
      CentsOf(AmountOf(p).value), Currency, env.siteUrl, Some(MetaOf(p.metadata)), MetaOf(p.metadata).userAgent,
      ClientIp(peer))
  }

  /** The conversion is attempted only for a finite, positive amount. */
  predicate Valued(p: PaymentRecord) {
    AmountOf(p).Finite? && AmountOf(p).value > 0.0
  }

  function ApprovedConversion(env: WebhookEnv, p: PaymentRecord, peer: Peer, nowMs: nat, sha256: string -> string, encode: string -> string)
    : (effects: seq<ServerEffect>)
    ensures |effects| <= 1 && forall i :: 0 <= i < |effects| ==> effects[i].MetaPost?
    ensures |effects| == 1 <==> Valued(p) && Present(env.meta.pixelId) && Present(env.meta.accessToken)
    ensures |effects| == 1 ==>
              effects[0].request.event.valueCents == CentsOf(AmountOf(p).value)
              && effects[0].request.event.userData == UserData(Some(CustomerOf(p.metadata)), Some(MetaOf(p.metadata)), sha256)
  {
    if Valued(p) then ConversionEffects(env.meta, PaymentPurchaseArgs(env, p, peer), nowMs, sha256, encode) else []
  }

  /** Provisioning needs every one of the buyer's four fields. */
  predicate CustomerComplete(u: User) {
    Present(u.name) && Present(u.email) && Present(u.phone) && Present(u.document)
  }

  /** `env || default` */
  function Setting(v: Option<string>, default: string): (r: string)
    ensures Present(v) ==> r == v.value
    ensures !Present(v) ==> r == default
  {
    if Present(v) then v.value else default
  }

  /** The provisioning payload for a complete customer. */
  function MemboxPayloadOf(env: WebhookEnv, u: User): (p: MemboxPayload)
    requires CustomerComplete(u) && Present(env.memboxCredential)
    ensures p.kind == "insert"
    ensures p.customer == MemboxCustomer(u.name.value, u.email.value, u.phone.value, u.document.value)
    ensures p.productName == Setting(env.memboxProductName, DefaultProductName)
    ensures p.orderBumpIds == [Setting(env.memboxOrderBumpId, DefaultOrderBumpId)]
    ensures p.credential == env.memboxCredential.value
  {
    MemboxPayload(
      "insert", MemboxCustomer(u.name.value, u.email.value, u.phone.value, u.document.value),
      Setting(env.memboxProductName, DefaultProductName), [Setting(env.memboxOrderBumpId, DefaultOrderBumpId)],
      env.memboxCredential.value)
  }

  /** `callMemboxWebhook` and the answer built from its outcome. */
  function Provision(env: WebhookEnv, u: User, reply: MemboxReply): (r: WebhookHandled)
    requires CustomerComplete(u)
    ensures r.response.status == 200 && r.response.allow.None?
    ensures !Present(env.memboxUrl) || !Present(env.memboxCredential) ==>
              r == WebhookHandled(WebhookResponse(200, None, Failed(MissingMemboxEnvMessage)), [])
    ensures Present(env.memboxUrl) && Present(env.memboxCredential) ==>
              && r.effects == [MemboxPost(env.memboxUrl.value, MemboxPayloadOf(env, u))]
              && (reply.MemboxThrew? ==> r.response.body == Failed(ThrownText(reply.thrown)))
              && (reply.MemboxAnswered? && !reply.ok ==>
                    r.response.body == Failed(MemboxFailurePrefix + NatToString(reply.status) + " " + reply.text))
              && (reply.MemboxAnswered? && reply.ok ==> r.response.body == MemboxSent(reply.text))
  {
    if !Present(env.memboxUrl) || !Present(env.memboxCredential) then
      WebhookHandled(WebhookResponse(200, None, Failed(MissingMemboxEnvMessage)), [])
    else
      var post := [MemboxPost(env.memboxUrl.value, MemboxPayloadOf(env, u))];
      match reply
      case MemboxThrew(e) => WebhookHandled(WebhookResponse(200, None, Failed(ThrownText(e))), post)
      case MemboxAnswered(ok, status, text) =>
        if !ok then WebhookHandled(WebhookResponse(200, None, Failed(MemboxFailurePrefix + NatToString(status) + " " + text)), post)
        else WebhookHandled(WebhookResponse(200, None, MemboxSent(text)), post)
  }

  /** The steps after an approved payment was fetched: conversion, the
      metadata gate, then provisioning. */
  function Approved(
    env: WebhookEnv, p: PaymentRecord, peer: Peer, membox: MemboxReply, nowMs: nat, sha256: string -> string, encode: string -> string)
    : (r: WebhookHandled)
    ensures var conv := ApprovedConversion(env, p, peer, nowMs, sha256, encode);
            && |r.effects| >= |conv| && r.effects[..|conv|] == conv
            && (!CustomerComplete(CustomerOf(p.metadata)) ==>
                  r == WebhookHandled(WebhookResponse(200, None, MemboxSkipped), conv))
            && (CustomerComplete(CustomerOf(p.metadata)) ==>
                  var t := Provision(env, CustomerOf(p.metadata), membox);
                  r == WebhookHandled(t.response, conv + t.effects))
  {
    var conv := ApprovedConversion(env, p, peer, nowMs, sha256, encode);
    var u := CustomerOf(p.metadata);
    if !CustomerComplete(u) then WebhookHandled(WebhookResponse(200, None, MemboxSkipped), conv)
    else
      var t := Provision(env, u, membox);
      WebhookHandled(t.response, conv + t.effects)
  }

  /** The endpoint `handler(req, res)`. */
  function Handle(
    env: WebhookEnv, httpMethod: string, n: Notification, peer: Peer, fetch: FetchReply, membox: MemboxReply,
    nowMs: nat, sha256: string -> string, encode: string -> string)
    : (r: WebhookHandled)
    ensures httpMethod != "POST" ==>
              r == WebhookHandled(WebhookResponse(405, Some("POST"), PlainText("Method not allowed")), [])
    ensures httpMethod == "POST" && !Present(env.mpAccessToken) ==>
              r == WebhookHandled(WebhookResponse(500, None, MissingToken), [])
    ensures httpMethod == "POST" && Present(env.mpAccessToken) && PaymentIdOf(n).None? ==>
              r == WebhookHandled(WebhookResponse(200, None, Ignored), [])
    ensures httpMethod == "POST" && Present(env.mpAccessToken) && PaymentIdOf(n).Some? ==>
              var call := FetchPayment(Bearer(env.mpAccessToken.value), PaymentsUrl + "/" + encode(PaymentIdOf(n).value));
              && |r.effects| >= 1 && r.effects[0] == call
              && (fetch.FetchThrew? ==> r == WebhookHandled(WebhookResponse(200, None, Failed(ThrownText(fetch.thrown))), [call]))
              && (fetch.Fetched? && !fetch.ok ==> r == WebhookHandled(WebhookResponse(200, None, MpError(fetch.payment)), [call]))
              && (fetch.Fetched? && fetch.ok && fetch.payment.status != Some("approved") ==>
                    r == WebhookHandled(WebhookResponse(200, None, NotApproved(fetch.payment.status)), [call]))
              && (fetch.Fetched? && fetch.ok && fetch.payment.status == Some("approved") ==>
                    var t := Approved(env, fetch.payment, peer, membox, nowMs, sha256, encode);
                    r == WebhookHandled(t.response, [call] + t.effects))
  {
    if httpMethod != "POST" then WebhookHandled(WebhookResponse(405, Some("POST"), PlainText("Method not allowed")), [])
    else if !Present(env.mpAccessToken) then WebhookHandled(WebhookResponse(500, None, MissingToken), [])
    else
      match PaymentIdOf(n)
      case None => WebhookHandled(WebhookResponse(200, None, Ignored), [])
      case Some(id) =>
        var call := FetchPayment(Bearer(env.mpAccessToken.value), PaymentsUrl + "/" + encode(id));
        match fetch
        case FetchThrew(e) => WebhookHandled(WebhookResponse(200, None, Failed(ThrownText(e))), [call])
        case Fetched(ok, payment) =>
          if !ok then WebhookHandled(WebhookResponse(200, None, MpError(payment)), [call])
          else if payment.status != Some("approved") then WebhookHandled(WebhookResponse(200, None, NotApproved(payment.status)), [call])
          else
            var t := Approved(env, payment, peer, membox, nowMs, sha256, encode);
            WebhookHandled(t.response, [call] + t.effects)
  }

  /** Once the method and the token are right, every outcome, failures
      included, is acknowledged with 200, so the gateway does not redeliver. */
  lemma {:induction false} AlwaysAcknowledged(
    env: WebhookEnv, httpMethod: string, n: Notification, peer: Peer, fetch: FetchReply, membox: MemboxReply,
    nowMs: nat, sha256: string -> string, encode: string -> string)
    requires httpMethod == "POST" && Present(env.mpAccessToken)
    ensures Handle(env, httpMethod, n, peer, fetch, membox, nowMs, sha256, encode).response.status == 200
  {
    if PaymentIdOf(n).Some? && fetch.Fetched? && fetch.ok && fetch.payment.status == Some("approved") {
      var p := fetch.payment;
      if CustomerComplete(CustomerOf(p.metadata)) {
        var t := Provision(env, CustomerOf(p.metadata), membox);
        assert t.response.status == 200;
      }
    }
  }

  /** The number of member-area posts in a trace. */
  function CountMemboxPosts(effects: seq<ServerEffect>): nat {
    if effects == [] then 0 else (if effects[0].MemboxPost? then 1 else 0) + CountMemboxPosts(effects[1..])
  }

  lemma {:induction false} CountMemboxPostsAppend(a: seq<ServerEffect>, b: seq<ServerEffect>)
    ensures CountMemboxPosts(a + b) == CountMemboxPosts(a) + CountMemboxPosts(b)
  {
    if a == [] {
      assert a + b == b;
    } else {
      assert (a + b)[1..] == a[1..] + b;
      CountMemboxPostsAppend(a[1..], b);
    }
  }

  /** The outcome that provisions the buyer: an approved payment with all
      four customer fields and the member-area settings present. */
  predicate Provisions(env: WebhookEnv, httpMethod: string, n: Notification, fetch: FetchReply) {
    && httpMethod == "POST" && Present(env.mpAccessToken) && PaymentIdOf(n).Some?
    && fetch.Fetched? && fetch.ok && fetch.payment.status == Some("approved")
    && CustomerComplete(CustomerOf(fetch.payment.metadata))
    && Present(env.memboxUrl) && Present(env.memboxCredential)
  }

  /** A member-area post is made exactly when `Provisions` holds, and at most
      once per notification. */
  lemma {:induction false} ProvisionOnlyWhenApprovedAndComplete(
    env: WebhookEnv, httpMethod: string, n: Notification, peer: Peer, fetch: FetchReply, membox: MemboxReply,
    nowMs: nat, sha256: string -> string, encode: string -> string)
    ensures var r := Handle(env, httpMethod, n, peer, fetch, membox, nowMs, sha256, encode);
            && CountMemboxPosts(r.effects) <= 1
            && (CountMemboxPosts(r.effects) == 1 <==> Provisions(env, httpMethod, n, fetch))
  {
    var r := Handle(env, httpMethod, n, peer, fetch, membox, nowMs, sha256, encode);
    if httpMethod == "POST" && Present(env.mpAccessToken) && PaymentIdOf(n).Some? {
      var call := FetchPayment(Bearer(env.mpAccessToken.value), PaymentsUrl + "/" + encode(PaymentIdOf(n).value));
      assert CountMemboxPosts([call]) == 0;
      if fetch.Fetched? && fetch.ok && fetch.payment.status == Some("approved") {
        var t := Approved(env, fetch.payment, peer, membox, nowMs, sha256, encode);
        CountMemboxPostsAppend([call], t.effects);
        ApprovedPostsOnce(env, fetch.payment, peer, membox, nowMs, sha256, encode);
      }
    }
  }

  /** After approval, one member-area post exactly when the customer is
      complete and the settings are there. */
  lemma {:induction false} ApprovedPostsOnce(
    env: WebhookEnv, p: PaymentRecord, peer: Peer, membox: MemboxReply, nowMs: nat, sha256: string -> string, encode: string -> string)
    ensures CountMemboxPosts(Approved(env, p, peer, membox, nowMs, sha256, encode).effects) ==
              if CustomerComplete(CustomerOf(p.metadata)) && Present(env.memboxUrl) && Present(env.memboxCredential) then 1 else 0
  {
    var conv := ApprovedConversion(env, p, peer, nowMs, sha256, encode);
    ConversionPostsNoMembox(env, p, peer, nowMs, sha256, encode);
    if CustomerComplete(CustomerOf(p.metadata)) {
      var u := Provision(env, CustomerOf(p.metadata), membox);
      CountMemboxPostsAppend(conv, u.effects);
      ProvisionPostsOnce(env, CustomerOf(p.metadata), membox);
    }
  }

  lemma ConversionPostsNoMembox(
    env: WebhookEnv, p: PaymentRecord, peer: Peer, nowMs: nat, sha256: string -> string, encode: string -> string)
    ensures CountMemboxPosts(ApprovedConversion(env, p, peer, nowMs, sha256, encode)) == 0
  {
    var conv := ApprovedConversion(env, p, peer, nowMs, sha256, encode);
    if conv != [] {
      assert conv == [conv[0]];
    }
  }

  lemma ProvisionPostsOnce(env: WebhookEnv, u: User, membox: MemboxReply)
    requires CustomerComplete(u)
    ensures CountMemboxPosts(Provision(env, u, membox).effects) ==
              if Present(env.memboxUrl) && Present(env.memboxCredential) then 1 else 0
  {
    var effects := Provision(env, u, membox).effects;
    if effects != [] {
      assert effects[1..] == [];
    }
  }

  /** A payment that is not approved, or cannot be fetched, causes no call
      beyond the lookup itself. */
  lemma NothingButLookupUnlessApproved(
    env: WebhookEnv, httpMethod: string, n: Notification, peer: Peer, fetch: FetchReply, membox: MemboxReply,
    nowMs: nat, sha256: string -> string, encode: string -> string)
    requires !(fetch.Fetched? && fetch.ok && fetch.payment.status == Some("approved"))
    ensures |Handle(env, httpMethod, n, peer, fetch, membox, nowMs, sha256, encode).effects| <= 1
    ensures forall e :: e in Handle(env, httpMethod, n, peer, fetch, membox, nowMs, sha256, encode).effects ==> e.FetchPayment?
  {
  }

  /** For an approved payment, provisioning is skipped exactly when one of
      the four customer fields is missing or empty. */
  lemma {:induction false} SkippedIffIncomplete(
    env: WebhookEnv, n: Notification, peer: Peer, p: PaymentRecord, membox: MemboxReply,
    nowMs: nat, sha256: string -> string, encode: string -> string)
    requires Present(env.mpAccessToken) && PaymentIdOf(n).Some? && p.status == Some("approved")
    ensures Handle(env, "POST", n, peer, Fetched(true, p), membox, nowMs, sha256, encode).response.body == MemboxSkipped
            <==> !CustomerComplete(CustomerOf(p.metadata))
  {
    if CustomerComplete(CustomerOf(p.metadata)) {
      var t := Provision(env, CustomerOf(p.metadata), membox);
      assert t.response.body != MemboxSkipped;
    }
  }

  /** The conversion settings never change the answer: whether the event
      is sent, skipped or fails, the response is the same. */
  lemma {:induction false} ResponseIgnoresConversion(
    env: WebhookEnv, other: MetaEnv, httpMethod: string, n: Notification, peer: Peer, fetch: FetchReply,
    membox: MemboxReply, nowMs: nat, sha256: string -> string, encode: string -> string)
    ensures Handle(env.(meta := other), httpMethod, n, peer, fetch, membox, nowMs, sha256, encode).response
            == Handle(env, httpMethod, n, peer, fetch, membox, nowMs, sha256, encode).response
  {
    if httpMethod == "POST" && Present(env.mpAccessToken) && PaymentIdOf(n).Some?
       && fetch.Fetched? && fetch.ok && fetch.payment.status == Some("approved") {
      var u := CustomerOf(fetch.payment.metadata);
      if CustomerComplete(u) {
        assert Provision(env.(meta := other), u, membox).response == Provision(env, u, membox).response;
      }
    }
  }
}
