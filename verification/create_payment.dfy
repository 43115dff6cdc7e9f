/** The `POST /api/create-payment` endpoint (api/create-payment.js): the
    request checks, the gateway payload, the error-message chain for a
    rejected payment, the conversion event for an approved card, and the
    JSON answer. The gateway's reply, the idempotency key, the clock and the
    hash are parameters. */
module CreatePayment {
  import opened Base
  import opened Text
  import opened Wire
  import opened Conversion
  import opened Gateway

  /** The environment variables the endpoint reads. */
  datatype CreateEnv = CreateEnv(mpAccessToken: Option<string>, siteUrl: Option<string>, meta: MetaEnv)

  /** A request body that passed every check. */
  datatype Order = Order(user: User, items: seq<Item>, paymentMethod: PaymentMethod, card: Option<CardData>, meta: Option<Meta>)

  /** The `received` echo of a successful answer. */
  datatype Received = Received(user: User, items: seq<Item>, paymentMethod: PaymentMethod)

  /** The JSON body of an answer. */
  datatype CreateBody =
    | Failure(error: string, details: Option<PaymentRecord>)
    | Success(
        paymentId: Option<string>,
        status: Option<string>,
        statusDetail: Option<string>,
        qrCode: Option<string>,
        qrCodeBase64: Option<string>,
        ticketUrl: Option<string>,
        received: Received)

  /** An HTTP answer: status, the `Allow` header when set, and the body. */
  datatype ApiResponse = ApiResponse(status: nat, allow: Option<string>, body: CreateBody)

  /** The answer and the outbound calls made to produce it. */
  datatype Handled = Handled(response: ApiResponse, effects: seq<ServerEffect>)

  const NotificationPath: string := "/api/webhooks/mercadopago"
  const GenericDescription: string := "Compra"
  const DescriptionLimit: nat := 240

  /** The payment method string of the body, when it is one of the two. */
  function ParseMethod(s: Option<string>): (r: Option<PaymentMethod>)
    ensures r.Some? <==> s == Some("pix") || s == Some("credit_card")
    ensures r.Some? ==> s == Some(r.value.Wire())
  {
    if s == Some("pix") then Some(Pix)
    else if s == Some("credit_card") then Some(CreditCard)
    else None
  }

  /** `items.reduce((acc, it) => acc + Number(it?.price || 0), 0)` in cents. */
  function TotalCents(items: seq<Item>): int {
    if items == [] then 0 else (if items[0].price.Some? then items[0].price.value else 0) + TotalCents(items[1..])
  }

  lemma {:induction false} TotalCentsAppend(a: seq<Item>, b: seq<Item>)
    ensures TotalCents(a + b) == TotalCents(a) + TotalCents(b)
  {
    if a == [] {
      assert a + b == b;
    } else {
      assert (a + b)[1..] == a[1..] + b;
      TotalCentsAppend(a[1..], b);
    }
  }

  /** Items without a price count as zero: the total is the sum of the
      prices that are there. */
  lemma {:induction false} TotalIgnoresUnpriced(items: seq<Item>, it: Item)
    requires it.price.None?
    ensures TotalCents(items + [it]) == TotalCents(items)
  {
    TotalCentsAppend(items, [it]);
    assert [it][1..] == [];
  }

  /** The reasons a body is turned away with 400, or the order it describes. */
  datatype Checked = Rejected(error: string) | Accepted(order: Order)

  /** A card order carries a token and a card payment-method id. */
  predicate CardComplete(card: Option<CardData>) {
    card.Some? && Present(card.value.token) && Present(card.value.paymentMethodId)
  }

  /** The body has a buyer with an e-mail and a non-empty item list. */
  predicate Shaped(body: Option<RequestBody>) {
    && body.Some? && body.value.user.Some? && Present(body.value.user.value.email)
    && body.value.items.Some? && body.value.items.value != []
  }

  /** What every accepted order satisfies. */
  predicate Acceptable(o: Order) {
    && Present(o.user.email) && o.items != [] && TotalCents(o.items) > 0
    && (o.paymentMethod == CreditCard ==> CardComplete(o.card))
  }

  /** A card body without a token or a card payment-method id. */
  predicate MissingCard(b: RequestBody) {
    ParseMethod(b.paymentMethod) == Some(CreditCard) && !CardComplete(b.card)
  }

  /** A body with a valid method and complete card data whose prices do not
      add up to a positive total. */
  predicate BadTotal(b: RequestBody) {
    && ParseMethod(b.paymentMethod).Some? && !MissingCard(b)
    && TotalCents(if b.items.Some? then b.items.value else []) <= 0
  }

  /** The four 400 checks, in the order the endpoint makes them. */
  function Check(body: Option<RequestBody>): (r: Checked)
    ensures !Shaped(body) <==> r == Rejected("Invalid payload")
    ensures Shaped(body) ==>
              && (ParseMethod(body.value.paymentMethod).None? <==> r == Rejected("Invalid payment method"))
              && (MissingCard(body.value) <==> r == Rejected("Missing card token or payment method"))
              && (BadTotal(body.value) <==> r == Rejected("Invalid items total"))
    ensures r.Accepted? ==>
              && Acceptable(r.order)
              && r.order.user == body.value.user.value && r.order.items == body.value.items.value
              && Some(r.order.paymentMethod) == ParseMethod(body.value.paymentMethod)
              && r.order.card == body.value.card && r.order.meta == body.value.meta
  {
    if !Shaped(body) then Rejected("Invalid payload")
    else
      var b := body.value;
      match ParseMethod(b.paymentMethod)
      case None => Rejected("Invalid payment method")
      case Some(m) =>
        if m == CreditCard && !CardComplete(b.card) then Rejected("Missing card token or payment method")
        else if TotalCents(b.items.value) <= 0 then Rejected("Invalid items total")
        else Accepted(Order(b.user.value, b.items.value, m, b.card, b.meta))
  }

  /** `siteUrl ? `${siteUrl.replace(/\/$/, '')}/api/webhooks/mercadopago` : undefined` */
  function NotificationUrl(siteUrl: Option<string>): (r: Option<string>)
    ensures r.Some? <==> Present(siteUrl)
    ensures r.Some? ==> r.value == DropTrailingSlash(siteUrl.value) + NotificationPath
  {
    if Present(siteUrl) then Some(DropTrailingSlash(siteUrl.value) + NotificationPath) else None
  }

  /** A site URL with or without its trailing slash gives the same
      notification URL, so the path never follows a doubled slash. */
  lemma TrailingSlashIrrelevant(site: string)
    requires site != [] && site[|site| - 1] != '/'
    ensures NotificationUrl(Some(site + "/")) == NotificationUrl(Some(site))
  {
    assert (site + "/")[..|site + "/"| - 1] == site;
  }

  /** The titles that are there, in item order. */
  function Titles(items: seq<Item>): (r: seq<string>)
    ensures |r| <= |items|
    ensures forall i :: 0 <= i < |r| ==> r[i] != []
  {
    if items == [] then []
    else (if Present(items[0].title) then [items[0].title.value] else []) + Titles(items[1..])
  }

  /** The payment description: the titles joined with ` + `, cut to 240
      characters, or `Compra` when no item has a title. */
  function Description(items: seq<Item>): (r: string)
    ensures 0 < |r| <= DescriptionLimit
    ensures Titles(items) == [] ==> r == GenericDescription
    ensures Titles(items) != [] ==> r == Take(Join(Titles(items), " + "), DescriptionLimit)
  {
    var joined := Take(Join(Titles(items), " + "), DescriptionLimit);
    JoinEmpty(Titles(items), " + ");
    if joined == [] then GenericDescription else joined
  }

  /** A single titled item names the payment after it. */
  lemma {:induction false} DescriptionOfOneTitle(title: string, id: Option<string>, price: Option<int>)
    requires title != []
    ensures Description([Item(id, Some(title), price)]) == Take(title, DescriptionLimit)
  {
    var items := [Item(id, Some(title), price)];
    assert items[1..] == [];
    assert Titles(items) == [title];
  }

  /** `Number(card?.installments || 1)` */
  function InstallmentsOf(card: Option<CardData>): (n: JsNum)
    ensures n.Truthy()
    ensures card.Some? && card.value.installments.Some? && card.value.installments.value.Truthy() ==>
              n == card.value.installments.value
    ensures !(card.Some? && card.value.installments.Some? && card.value.installments.value.Truthy()) ==>
              n == Finite(1.0)
  {
    if card.Some? && card.value.installments.Some? && card.value.installments.value.Truthy()
    then card.value.installments.value
    else Finite(1.0)
  }

  /** The stored metadata: the buyer's fields as sent, the attribution fields
      that are truthy, and the items. */
  function MetadataOf(user: User, meta: Option<Meta>, items: seq<Item>): (m: Metadata)
    ensures m.customerName == user.name && m.customerEmail == user.email
    ensures m.customerPhone == user.phone && m.customerDocument == user.document
    ensures meta.None? ==> m.metaFbp.None? && m.metaFbc.None? && m.metaFbclid.None? && m.metaUrl.None? && m.metaUa.None?
    ensures meta.Some? ==>
              && m.metaFbp == Truthy(meta.value.fbp) && m.metaFbc == Truthy(meta.value.fbc)
              && m.metaFbclid == Truthy(meta.value.fbclid) && m.metaUrl == Truthy(meta.value.url)
              && m.metaUa == Truthy(meta.value.userAgent)
    ensures m.items == Some(items) && m.transactionAmount.None?
  {
    var mt := if meta.Some? then meta.value else Meta(None, None, None, None, None);
    Metadata(
      user.name, user.email, user.phone, user.document,
      Truthy(mt.fbp), Truthy(mt.fbc), Truthy(mt.fbclid), Truthy(mt.url), Truthy(mt.userAgent),
      Some(items), None)
  }

  /** The gateway payload for an accepted order. */
  function Payload(o: Order, siteUrl: Option<string>): (p: PaymentPayload)
    requires Acceptable(o)
    ensures p.transactionAmountCents == TotalCents(o.items) > 0
    ensures p.description == Description(o.items)
    ensures p.payer.email == o.user.email.value
    ensures p.notificationUrl == NotificationUrl(siteUrl)
    ensures p.metadata == MetadataOf(o.user, o.meta, o.items)
    ensures o.paymentMethod == Pix ==>
              && p.paymentMethodId == "pix" && p.payer.identification.None?
              && p.token.None? && p.installments.None? && p.issuerId.None?
    ensures o.paymentMethod == CreditCard ==>
              && p.paymentMethodId == o.card.value.paymentMethodId.value
              && p.token == o.card.value.token && p.issuerId == o.card.value.issuerId
              && p.installments == Some(InstallmentsOf(o.card))
              && p.payer.identification == Some(Identification("CPF", OrEmpty(o.user.document)))
  {
    var base := PaymentPayload(
      TotalCents(o.items), Description(o.items), Payer(o.user.email.value, None),
      NotificationUrl(siteUrl), MetadataOf(o.user, o.meta, o.items), "pix", None, None, None);
    match o.paymentMethod
    case Pix => base
    case CreditCard =>
      var card := o.card.value;
      base.(
        token := card.token, installments := Some(InstallmentsOf(o.card)),
        paymentMethodId := card.paymentMethodId.value, issuerId := card.issuerId,
        payer := Payer(o.user.email.value, Some(Identification("CPF", OrEmpty(o.user.document)))))
  }

  /** One cause as `code - description - detail`, skipping the missing parts. */
  function CausePart(c: Cause): string {
    Join(Compact([OrEmpty(c.code), OrEmpty(c.description), OrEmpty(c.detail)]), " - ")
  }

  lemma CausePartEmpty(c: Cause)
    ensures CausePart(c) == [] <==> !Present(c.code) && !Present(c.description) && !Present(c.detail)
  {
    var parts := [OrEmpty(c.code), OrEmpty(c.description), OrEmpty(c.detail)];
    JoinEmpty(Compact(parts), " - ");
    assert Compact(parts) != [] ==> Compact(parts)[0] in parts && Compact(parts)[0] != [];
    assert Present(c.code) ==> OrEmpty(c.code) in parts;
    assert Present(c.description) ==> OrEmpty(c.description) in parts;
    assert Present(c.detail) ==> OrEmpty(c.detail) in parts;
  }

  function CauseParts(causes: seq<Cause>): (r: seq<string>)
    ensures |r| == |causes|
    ensures forall i :: 0 <= i < |causes| ==> r[i] == CausePart(causes[i])
  {
    if causes == [] then [] else [CausePart(causes[0])] + CauseParts(causes[1..])
  }

  /** The `cause` list as text: the non-empty cause parts joined with ` | `;
      empty when the list is missing. */
  function CauseText(causes: Option<seq<Cause>>): string {
    if causes.None? then [] else Join(Compact(CauseParts(causes.value)), " | ")
  }

  /** The cause text is empty exactly when no cause has any part. */
  lemma CauseTextEmpty(causes: Option<seq<Cause>>)
    ensures CauseText(causes) == [] <==>
              causes.None? ||
              forall i :: 0 <= i < |causes.value| ==>
                !Present(causes.value[i].code) && !Present(causes.value[i].description) && !Present(causes.value[i].detail)
  {
    if causes.Some? {
      var parts := CauseParts(causes.value);
      JoinEmpty(Compact(parts), " | ");
      forall i | 0 <= i < |causes.value|
        ensures CausePart(causes.value[i]) == [] <==>
                  !Present(causes.value[i].code) && !Present(causes.value[i].description) && !Present(causes.value[i].detail)
      {
        CausePartEmpty(causes.value[i]);
      }
      if Compact(parts) == [] {
        forall i | 0 <= i < |parts| ensures parts[i] == [] {
          assert parts[i] in parts;
        }
      } else {
        assert Compact(parts)[0] in Compact(parts);
      }
    }
  }

  /** The error of a rejected payment: the gateway's `message`, else its
      `error`, else its `status`, else the cause text, else a fixed text. */
  function MpMessage(data: PaymentRecord): (r: string)
    ensures r != []
    ensures Present(data.message) ==> r == data.message.value
    ensures !Present(data.message) && Present(data.error) ==> r == data.error.value
    ensures !Present(data.message) && !Present(data.error) && Present(data.status) ==> r == data.status.value
    ensures !Present(data.message) && !Present(data.error) && !Present(data.status) && CauseText(data.cause) != [] ==>
              r == "Mercado Pago: " + CauseText(data.cause)
    ensures !Present(data.message) && !Present(data.error) && !Present(data.status) && CauseText(data.cause) == [] ==>
              r == "Mercado Pago error"
  {
    if Present(data.message) then data.message.value
    else if Present(data.error) then data.error.value
    else if Present(data.status) then data.status.value
    else if CauseText(data.cause) != [] then "Mercado Pago: " + CauseText(data.cause)
    else "Mercado Pago error"
  }

  /** The fixed fallback is used exactly when the gateway gave nothing to
      show: no message, error or status and no cause with any part. */
  lemma FallbackMessageOnlyWhenSilent(data: PaymentRecord)
    ensures MpMessage(data) == "Mercado Pago error" <==>
              || (!Present(data.message) && !Present(data.error) && !Present(data.status) && CauseText(data.cause) == [])
              || data.message == Some("Mercado Pago error")
              || (!Present(data.message) && data.error == Some("Mercado Pago error"))
              || (!Present(data.message) && !Present(data.error) && data.status == Some("Mercado Pago error"))
  {
    var t := CauseText(data.cause);
    if !Present(data.message) && !Present(data.error) && !Present(data.status) && t != [] {
      assert ("Mercado Pago: " + t)[..13] == "Mercado Pago:";
      assert "Mercado Pago error"[..13] == "Mercado Pago ";
    }
  }

  /** `meta?.url ? String(meta.url) : siteUrl` */
  function EventSourceUrl(meta: Option<Meta>, siteUrl: Option<string>): Option<string> {
    if meta.Some? && Present(meta.value.url) then meta.value.url else siteUrl
  }

  /** The conversion arguments for an approved card payment. */
  function CardPurchaseArgs(env: CreateEnv, o: Order, data: PaymentRecord, peer: Peer): (a: PurchaseArgs)
    ensures a.user == Some(o.user) && a.items == Some(o.items) && a.meta == o.meta
    ensures a.paymentId == data.id && a.valueCents == TotalCents(o.items) && a.currency == Currency
    ensures a.eventSourceUrl == EventSourceUrl(o.meta, env.siteUrl)
    ensures a.clientUserAgent == OrElse(if o.meta.Some? then o.meta.value.userAgent else None, Header(peer, "user-agent"))
    ensures a.clientIpAddress == ClientIp(peer)
  {
    PurchaseArgs(
      data.id, Some(o.user), Some(o.items), TotalCents(o.items), Currency, EventSourceUrl(o.meta, env.siteUrl), o.meta,
      OrElse(if o.meta.Some? then o.meta.value.userAgent else None, Header(peer, "user-agent")), ClientIp(peer))
  }

  /** The contents list prices each item as the total does: a missing price
      is 0, so the two sums agree. */
  lemma {:induction false} ContentsTotalIsTotalCents(items: seq<Item>, cs: seq<Content>)
    requires |cs| == |items| && forall k :: 0 <= k < |items| ==> cs[k] == ContentOf(items[k])
    ensures ContentsTotal(cs) == TotalCents(items)
  {
    if items != [] {
      ContentsTotalIsTotalCents(items[1..], cs[1..]);
    }
  }

  /** The event posted for an approved card carries the order's contents,
      its value is their price total, and the page URL, user agent and IP
      are those of the request. */
  lemma CardConversionEvent(
    menv: MetaEnv, env: CreateEnv, o: Order, data: PaymentRecord, peer: Peer,
    nowMs: nat, sha256: string -> string, encode: string -> string)
    ensures var r := MetaPurchaseEvent(menv, CardPurchaseArgs(env, o, data, peer), nowMs, sha256, encode);
            r.Some? ==>
              && r.value.event.contents.Some?
              && r.value.event.valueCents == ContentsTotal(r.value.event.contents.value)
              && r.value.event.currency == Currency
              && r.value.event.eventSourceUrl == EventSourceUrl(o.meta, env.siteUrl)
              && r.value.event.clientUserAgent == Truthy(OrElse(if o.meta.Some? then o.meta.value.userAgent else None, Header(peer, "user-agent")))
              && r.value.event.clientIpAddress == Truthy(ClientIp(peer))
  {
    var r := MetaPurchaseEvent(menv, CardPurchaseArgs(env, o, data, peer), nowMs, sha256, encode);
    if r.Some? {
      ContentsTotalIsTotalCents(o.items, r.value.event.contents.value);
    }
  }

  /** The success body: the gateway's id and status, the pix charge fields
      when there are any, and the order echoed back. */
  function SuccessBody(o: Order, data: PaymentRecord): (b: CreateBody)
    ensures b.Success? && b.paymentId == data.id && b.status == data.status && b.statusDetail == data.statusDetail
    ensures data.transactionData.None? ==> b.qrCode.None? && b.qrCodeBase64.None? && b.ticketUrl.None?
    ensures data.transactionData.Some? ==>
              && b.qrCode == data.transactionData.value.qrCode
              && b.qrCodeBase64 == data.transactionData.value.qrCodeBase64
              && b.ticketUrl == data.transactionData.value.ticketUrl
    ensures b.received == Received(o.user, o.items, o.paymentMethod)
  {
    var tx := data.transactionData.GetOr(TransactionData(None, None, None));
    Success(data.id, data.status, data.statusDetail, tx.qrCode, tx.qrCodeBase64, tx.ticketUrl,
      Received(o.user, o.items, o.paymentMethod))
  }

  /** What the endpoint does with the gateway's reply to an accepted order. */
  function Settle(
    env: CreateEnv, o: Order, peer: Peer, reply: GatewayReply, nowMs: nat, sha256: string -> string, encode: string -> string)
    : (r: Handled)
    ensures reply.GatewayThrew? ==> r == Handled(ApiResponse(500, None, Failure("Payment creation failed", None)), [])
    ensures reply.GatewayAnswered? && !reply.ok ==>
              r == Handled(ApiResponse(reply.status, None, Failure(MpMessage(reply.data), Some(reply.data))), [])
    ensures reply.GatewayAnswered? && reply.ok ==>
              && r.response == ApiResponse(200, None, SuccessBody(o, reply.data))
              && (o.paymentMethod == CreditCard && reply.data.status == Some("approved") ==>
                    r.effects == ConversionEffects(env.meta, CardPurchaseArgs(env, o, reply.data, peer), nowMs, sha256, encode))
              && (!(o.paymentMethod == CreditCard && reply.data.status == Some("approved")) ==> r.effects == [])
  {
    match reply
    case GatewayThrew => Handled(ApiResponse(500, None, Failure("Payment creation failed", None)), [])
    case GatewayAnswered(ok, status, data) =>
      if !ok then Handled(ApiResponse(status, None, Failure(MpMessage(data), Some(data))), [])
      else
        var conversion :=
          if o.paymentMethod == CreditCard && data.status == Some("approved")
          then ConversionEffects(env.meta, CardPurchaseArgs(env, o, data, peer), nowMs, sha256, encode)
          else [];
        Handled(ApiResponse(200, None, SuccessBody(o, data)), conversion)
  }

  /** The endpoint `handler(req, res)`. */
  function Handle(
    env: CreateEnv, httpMethod: string, body: Option<RequestBody>, peer: Peer, idempotencyKey: string,
    reply: GatewayReply, nowMs: nat, sha256: string -> string, encode: string -> string)
    : (r: Handled)
    ensures httpMethod != "POST" ==>
              r == Handled(ApiResponse(405, Some("POST"), Failure("Method not allowed", None)), [])
    ensures httpMethod == "POST" && !Present(env.mpAccessToken) ==>
              r == Handled(ApiResponse(500, None, Failure("Missing MP_ACCESS_TOKEN", None)), [])
    ensures httpMethod == "POST" && Present(env.mpAccessToken) && Check(body).Rejected? ==>
              r == Handled(ApiResponse(400, None, Failure(Check(body).error, None)), [])
    ensures httpMethod == "POST" && Present(env.mpAccessToken) && Check(body).Accepted? ==>
              var call := CreatePaymentCall(Bearer(env.mpAccessToken.value), idempotencyKey, Payload(Check(body).order, env.siteUrl));
              var t := Settle(env, Check(body).order, peer, reply, nowMs, sha256, encode);
              r == Handled(t.response, [call] + t.effects)
  {
    if httpMethod != "POST" then Handled(ApiResponse(405, Some("POST"), Failure("Method not allowed", None)), [])
    else if !Present(env.mpAccessToken) then Handled(ApiResponse(500, None, Failure("Missing MP_ACCESS_TOKEN", None)), [])
    else
      match Check(body)
      case Rejected(e) => Handled(ApiResponse(400, None, Failure(e, None)), [])
      case Accepted(o) =>
        var call := CreatePaymentCall(Bearer(env.mpAccessToken.value), idempotencyKey, Payload(o, env.siteUrl));
        var t := Settle(env, o, peer, reply, nowMs, sha256, encode);
        Handled(t.response, [call] + t.effects)
  }

  /** The gateway is charged at most once, first, and only for a POST with
      the access token and a body that passed every check; nothing but a
      200 follows a charge that was not refused. */
  lemma {:induction false} ChargeOnlyForAcceptedOrders(
    env: CreateEnv, httpMethod: string, body: Option<RequestBody>, peer: Peer, idempotencyKey: string,
    reply: GatewayReply, nowMs: nat, sha256: string -> string, encode: string -> string)
    ensures var r := Handle(env, httpMethod, body, peer, idempotencyKey, reply, nowMs, sha256, encode);
            && (r.effects != [] <==> httpMethod == "POST" && Present(env.mpAccessToken) && Check(body).Accepted?)
            && (r.effects != [] ==> r.effects[0].CreatePaymentCall? && forall i :: 1 <= i < |r.effects| ==> r.effects[i].MetaPost?)
            && (r.response.body.Success? <==> r.effects != [] && reply.GatewayAnswered? && reply.ok)
            && (r.response.body.Success? ==> r.response.status == 200)
  {
    var r := Handle(env, httpMethod, body, peer, idempotencyKey, reply, nowMs, sha256, encode);
    if httpMethod == "POST" && Present(env.mpAccessToken) && Check(body).Accepted? {
      var t := Settle(env, Check(body).order, peer, reply, nowMs, sha256, encode);
      assert |t.effects| <= 1;
      assert r.effects[1..] == t.effects;
    }
  }

  /** The server-side Purchase conversion is sent only for a card payment the
      gateway approved, at most once, and always when the credentials are
      set; a pix payment never sends it here (its webhook does). */
  lemma {:induction false} ConversionOnlyForApprovedCards(
    env: CreateEnv, httpMethod: string, body: Option<RequestBody>, peer: Peer, idempotencyKey: string,
    reply: GatewayReply, nowMs: nat, sha256: string -> string, encode: string -> string)
    ensures var r := Handle(env, httpMethod, body, peer, idempotencyKey, reply, nowMs, sha256, encode);
            var approvedCard :=
              && httpMethod == "POST" && Present(env.mpAccessToken) && Check(body).Accepted?
              && Check(body).order.paymentMethod == CreditCard
              && reply.GatewayAnswered? && reply.ok && reply.data.status == Some("approved");
            && CountMetaPosts(r.effects) <= 1
            && (CountMetaPosts(r.effects) == 1 <==> approvedCard && Present(env.meta.pixelId) && Present(env.meta.accessToken))
  {
    var r := Handle(env, httpMethod, body, peer, idempotencyKey, reply, nowMs, sha256, encode);
    if httpMethod == "POST" && Present(env.mpAccessToken) && Check(body).Accepted? {
      var o := Check(body).order;
      var call := CreatePaymentCall(Bearer(env.mpAccessToken.value), idempotencyKey, Payload(o, env.siteUrl));
      var t := Settle(env, o, peer, reply, nowMs, sha256, encode);
      CountMetaPostsAppend([call], t.effects);
      assert [call][1..] == [];
      if t.effects != [] {
        assert t.effects == [t.effects[0]];
        assert t.effects[1..] == [];
      }
    }
  }

  /** The conversion settings never change the answer. */
  lemma {:induction false} ResponseIgnoresConversion(
    env: CreateEnv, other: MetaEnv, httpMethod: string, body: Option<RequestBody>, peer: Peer, idempotencyKey: string,
    reply: GatewayReply, nowMs: nat, sha256: string -> string, encode: string -> string)
    ensures Handle(env.(meta := other), httpMethod, body, peer, idempotencyKey, reply, nowMs, sha256, encode).response
            == Handle(env, httpMethod, body, peer, idempotencyKey, reply, nowMs, sha256, encode).response
  {
    if httpMethod == "POST" && Present(env.mpAccessToken) && Check(body).Accepted? {
      var o := Check(body).order;
      assert Settle(env.(meta := other), o, peer, reply, nowMs, sha256, encode).response
             == Settle(env, o, peer, reply, nowMs, sha256, encode).response;
    }
  }
}
