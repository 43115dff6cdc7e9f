/** The parts composed: the browser's request as the create-payment endpoint
    sees it, the endpoint's answer as the browser reads it, and the metadata
    the endpoint stores as the notification endpoint reads it back. */
module Scenarios {
  import opened Base
  import opened Text
  import opened Wire
  import opened OrderForm
  import opened Tracking
  import opened Conversion
  import opened Gateway
  import CS = CheckoutService
  import App = CheckoutApp
  import CP = CreatePayment
  import WH = Webhook
  import PP = PixPoller

  /** The JSON of a create-payment answer, as far as the browser reads it. */
  function ClientJson(b: CP.CreateBody): (j: ResponseJson)
    ensures j.success <==> b.Success?
    ensures j.message.None?
    ensures b.Failure? ==> j.error == Some(b.error) && j.paymentId.None? && j.status.None?
    ensures b.Success? ==>
              && j.error.None? && j.paymentId == b.paymentId && j.status == b.status && j.statusDetail == b.statusDetail
              && j.qrCode == b.qrCode && j.qrCodeBase64 == b.qrCodeBase64 && j.ticketUrl == b.ticketUrl
  {
    match b
    case Failure(e, _) => ResponseJson(false, Some(e), None, None, None, None, None, None, None)
    case Success(id, status, detail, qr, qr64, ticket, _) => ResponseJson(true, None, None, id, status, detail, qr, qr64, ticket)
  }

  /** The HTTP reply the browser's `fetch` gets for an answer. */
  function ClientReply(r: CP.ApiResponse): (h: CS.HttpReply)
    ensures h.HttpResponse? && h.status == r.status && h.json == CS.Parsed(ClientJson(r.body))
    ensures h.ok <==> 200 <= r.status < 300
  {
    CS.HttpResponse(200 <= r.status < 300, r.status, CS.Parsed(ClientJson(r.body)))
  }

  /** A form that passed validation has a non-empty e-mail. */
  lemma ValidHasEmail(form: Form)
    requires Validate(form).valid
    ensures form.email != []
  {
    assert Email in Checked;
    assert FieldOk(form, Email);
  }

  /** Whatever the browser sends for a valid form (with complete card data
      for a card payment) passes every check of the endpoint: one main
      product at 47.00, named after it. */
  lemma {:induction false} ValidFormAccepted(form: Form, pm: PaymentMethod, card: Option<CardData>, meta: Meta)
    requires Validate(form).valid
    requires pm == CreditCard ==> CP.CardComplete(card)
    ensures var c := CP.Check(Some(CS.RequestOf(form, pm, false, card, meta)));
            && c.Accepted? && c.order.paymentMethod == pm && c.order.items == [CS.MainItem]
            && CP.TotalCents(c.order.items) == MainProductPriceCents
            && CP.Description(c.order.items) == MainProductName
  {
    ValidHasEmail(form);
    var items := CS.Items(false);
    assert items == [CS.MainItem];
    assert items[1..] == [];
    assert CP.TotalCents(items) == MainProductPriceCents;
    CP.DescriptionOfOneTitle(MainProductName, Some(MainProductId), Some(MainProductPriceCents));
  }

  /** A card payment the gateway approves: the endpoint answers 200 and sends
      the Purchase conversion (when configured), and the page fires its own
      Purchase and schedules the card thank-you redirect. */
  lemma {:induction false} CardApprovalEndToEnd(
    app: App.AppState, form: Form, card: Option<CardData>, fbqPresent: bool, browser: CS.Browser,
    decode: string -> Option<string>, env: CP.CreateEnv, peer: Peer, key: string, gatewayStatus: nat,
    data: PaymentRecord, nowMs: nat, sha256: string -> string, encode: string -> string)
    requires Validate(form).valid && CP.CardComplete(card) && Present(env.mpAccessToken)
    requires data.status == Some("approved")
    ensures var body := CS.RequestOf(form, CreditCard, false, card, CS.FbClickData(browser, decode));
            var server := CP.Handle(env, "POST", Some(body), peer, key, GatewayAnswered(true, gatewayStatus, data), nowMs, sha256, encode);
            var checkout := CS.ProcessCheckout(form, CreditCard, false, card, browser, decode, ClientReply(server.response));
            var r := App.HandleSubmit(app, form, CreditCard, card, fbqPresent, checkout.outcome);
            && server.response.status == 200
            && CountMetaPosts(server.effects) == (if Present(env.meta.pixelId) && Present(env.meta.accessToken) then 1 else 0)
            && r.effects == [CallProcessCheckout(form, CreditCard, false, card)]
                            + TrackPurchase(fbqPresent, data.id) + [Redirect(CardSuccessUrl, RedirectDelayMs)]
  {
    var body := CS.RequestOf(form, CreditCard, false, card, CS.FbClickData(browser, decode));
    ValidFormAccepted(form, CreditCard, card, CS.FbClickData(browser, decode));
    CP.ConversionOnlyForApprovedCards(env, "POST", Some(body), peer, key, GatewayAnswered(true, gatewayStatus, data), nowMs, sha256, encode);
    var server := CP.Handle(env, "POST", Some(body), peer, key, GatewayAnswered(true, gatewayStatus, data), nowMs, sha256, encode);
    var checkout := CS.ProcessCheckout(form, CreditCard, false, card, browser, decode, ClientReply(server.response));
    App.SubmitCardApproved(app, form, card, fbqPresent, checkout.outcome);
  }

  /** A pix charge the gateway creates: the endpoint sends no conversion
      (that waits for the notification), and the page shows the charge and
      starts polling its status. */
  lemma {:induction false} PixChargeEndToEnd(
    app: App.AppState, form: Form, fbqPresent: bool, browser: CS.Browser,
    decode: string -> Option<string>, env: CP.CreateEnv, peer: Peer, key: string, gatewayStatus: nat,
    data: PaymentRecord, nowMs: nat, sha256: string -> string, encode: string -> string)
    requires Validate(form).valid && Present(env.mpAccessToken) && Present(data.id)
    ensures var body := CS.RequestOf(form, Pix, false, None, CS.FbClickData(browser, decode));
            var server := CP.Handle(env, "POST", Some(body), peer, key, GatewayAnswered(true, gatewayStatus, data), nowMs, sha256, encode);
            var checkout := CS.ProcessCheckout(form, Pix, false, None, browser, decode, ClientReply(server.response));
            var r := App.HandleSubmit(app, form, Pix, None, fbqPresent, checkout.outcome);
            var tx := data.transactionData.GetOr(TransactionData(None, None, None));
            && server.response.status == 200
            && CountMetaPosts(server.effects) == 0
            && r.state.pix == Some(App.PixPayment(data.id.value, tx.qrCode, tx.qrCodeBase64, tx.ticketUrl))
            && PP.PollingActive(r.state.pix, Pix, None)
  {
    var body := CS.RequestOf(form, Pix, false, None, CS.FbClickData(browser, decode));
    var reply := GatewayAnswered(true, gatewayStatus, data);
    ServerPixCharge(form, CS.FbClickData(browser, decode), env, peer, key, gatewayStatus, data, nowMs, sha256, encode);
    var server := CP.Handle(env, "POST", Some(body), peer, key, reply, nowMs, sha256, encode);
    var checkout := CS.ProcessCheckout(form, Pix, false, None, browser, decode, ClientReply(server.response));
    assert checkout.outcome.Returned? && checkout.outcome.result.success && checkout.outcome.result.paymentId == data.id;
    App.SubmitPix(app, form, None, fbqPresent, checkout.outcome);
  }

  /** The endpoint's side of a created pix charge. */
  lemma {:induction false} ServerPixCharge(
    form: Form, meta: Meta, env: CP.CreateEnv, peer: Peer, key: string,
    gatewayStatus: nat, data: PaymentRecord, nowMs: nat, sha256: string -> string, encode: string -> string)
    requires Validate(form).valid && Present(env.mpAccessToken)
    ensures var body := CS.RequestOf(form, Pix, false, None, meta);
            var server := CP.Handle(env, "POST", Some(body), peer, key, GatewayAnswered(true, gatewayStatus, data), nowMs, sha256, encode);
            && server.response == CP.ApiResponse(200, None, CP.SuccessBody(CP.Order(body.user.value, [CS.MainItem], Pix, None, Some(meta)), data))
            && CountMetaPosts(server.effects) == 0
  {
    var body := CS.RequestOf(form, Pix, false, None, meta);
    ValidFormAccepted(form, Pix, None, meta);
    CP.ConversionOnlyForApprovedCards(env, "POST", Some(body), peer, key, GatewayAnswered(true, gatewayStatus, data), nowMs, sha256, encode);
  }

  /** A rejected payment: the gateway's message becomes the page's banner. */
  lemma {:induction false} GatewayRefusalReachesBanner(
    app: App.AppState, form: Form, pm: PaymentMethod, card: Option<CardData>, fbqPresent: bool, browser: CS.Browser,
    decode: string -> Option<string>, env: CP.CreateEnv, peer: Peer, key: string, gatewayStatus: nat,
    data: PaymentRecord, nowMs: nat, sha256: string -> string, encode: string -> string)
    requires Validate(form).valid && (pm == CreditCard ==> CP.CardComplete(card)) && Present(env.mpAccessToken)
    requires !(200 <= gatewayStatus < 300)
    ensures var body := CS.RequestOf(form, pm, false, card, CS.FbClickData(browser, decode));
            var server := CP.Handle(env, "POST", Some(body), peer, key, GatewayAnswered(false, gatewayStatus, data), nowMs, sha256, encode);
            var checkout := CS.ProcessCheckout(form, pm, false, card, browser, decode, ClientReply(server.response));
            var r := App.HandleSubmit(app, form, pm, card, fbqPresent, checkout.outcome);
            && server.response.status == gatewayStatus
            && r.state.payment.error == Some(CP.MpMessage(data))
            && r.effects == [CallProcessCheckout(form, pm, false, card)]
  {
    var body := CS.RequestOf(form, pm, false, card, CS.FbClickData(browser, decode));
    ServerRefusal(form, pm, card, CS.FbClickData(browser, decode), env, peer, key, gatewayStatus, data, nowMs, sha256, encode);
    var server := CP.Handle(env, "POST", Some(body), peer, key, GatewayAnswered(false, gatewayStatus, data), nowMs, sha256, encode);
    var checkout := CS.ProcessCheckout(form, pm, false, card, browser, decode, ClientReply(server.response));
    ClientSeesRefusal(form, pm, card, browser, decode, gatewayStatus, CP.MpMessage(data), Some(data));
    App.SubmitThrown(app, form, pm, card, fbqPresent, checkout.outcome);
  }

  /** The browser's side of a refusal: a non-2xx answer with an error text
      makes `processCheckout` throw that text. */
  lemma ClientSeesRefusal(
    form: Form, pm: PaymentMethod, card: Option<CardData>, browser: CS.Browser, decode: string -> Option<string>,
    status: nat, error: string, details: Option<PaymentRecord>)
    requires !(200 <= status < 300) && error != []
    ensures CS.ProcessCheckout(form, pm, false, card, browser, decode,
                               ClientReply(CP.ApiResponse(status, None, CP.Failure(error, details)))).outcome
            == CS.Threw(CS.ErrorObject(error))
  {
  }

  /** The endpoint's side of a refusal: the gateway's status and message. */
  lemma {:induction false} ServerRefusal(
    form: Form, pm: PaymentMethod, card: Option<CardData>, meta: Meta, env: CP.CreateEnv, peer: Peer, key: string,
    gatewayStatus: nat, data: PaymentRecord, nowMs: nat, sha256: string -> string, encode: string -> string)
    requires Validate(form).valid && (pm == CreditCard ==> CP.CardComplete(card)) && Present(env.mpAccessToken)
    ensures CP.Handle(env, "POST", Some(CS.RequestOf(form, pm, false, card, meta)), peer, key,
                      GatewayAnswered(false, gatewayStatus, data), nowMs, sha256, encode).response
            == CP.ApiResponse(gatewayStatus, None, CP.Failure(CP.MpMessage(data), Some(data)))
  {
    ValidFormAccepted(form, pm, card, meta);
  }

  /** The stored metadata gives the notification endpoint back the buyer
      exactly as sent, and the same hashed identity for the conversion. */
  lemma MetadataRoundTrip(user: User, meta: Option<Meta>, items: seq<Item>, sha256: string -> string)
    ensures var md := Some(CP.MetadataOf(user, meta, items));
            && WH.CustomerOf(md) == user
            && UserData(Some(WH.CustomerOf(md)), Some(WH.MetaOf(md)), sha256) == UserData(Some(user), meta, sha256)
  {
    var md := Some(CP.MetadataOf(user, meta, items));
    forall k ensures UserField(k, Some(WH.CustomerOf(md)), Some(WH.MetaOf(md)), sha256) == UserField(k, Some(user), meta, sha256) {
    }
    SameFieldsSameUserData(Some(WH.CustomerOf(md)), Some(WH.MetaOf(md)), Some(user), meta, sha256);
  }

  /** An approved payment whose metadata the checkout stored, notified with
      its id: the buyer is provisioned with the name and e-mail typed and the
      digits of the phone and document, when all four are non-empty. */
  lemma {:induction false} ApprovedOrderProvisioned(
    form: Form, pm: PaymentMethod, card: Option<CardData>, meta: Meta, env: WH.WebhookEnv, n: WH.Notification, peer: Peer,
    p: PaymentRecord, membox: WH.MemboxReply, nowMs: nat, sha256: string -> string, encode: string -> string)
    requires Present(env.mpAccessToken) && WH.PaymentIdOf(n).Some?
    requires Present(env.memboxUrl) && Present(env.memboxCredential)
    requires var user := CS.RequestOf(form, pm, false, card, meta).user.value;
             p.status == Some("approved") && p.metadata == Some(CP.MetadataOf(user, Some(meta), CS.Items(false)))
    requires form.name != [] && form.email != [] && DigitsOnly(form.phone) != [] && DigitsOnly(form.document) != []
    ensures var r := WH.Handle(env, "POST", n, peer, WH.Fetched(true, p), membox, nowMs, sha256, encode);
            && WH.CountMemboxPosts(r.effects) == 1
            && MemboxPost(env.memboxUrl.value,
                 MemboxPayload("insert", MemboxCustomer(form.name, form.email, DigitsOnly(form.phone), DigitsOnly(form.document)),
                   WH.Setting(env.memboxProductName, WH.DefaultProductName),
                   [WH.Setting(env.memboxOrderBumpId, WH.DefaultOrderBumpId)], env.memboxCredential.value)) in r.effects
  {
    var user := CS.RequestOf(form, pm, false, card, meta).user.value;
    var u := WH.CustomerOf(p.metadata);
    assert u == user;
    WH.ProvisionOnlyWhenApprovedAndComplete(env, "POST", n, peer, WH.Fetched(true, p), membox, nowMs, sha256, encode);
    var t := WH.Approved(env, p, peer, membox, nowMs, sha256, encode);
    var conv := WH.ApprovedConversion(env, p, peer, nowMs, sha256, encode);
    var prov := WH.Provision(env, u, membox);
    assert t.effects == conv + prov.effects;
    assert prov.effects[0] in t.effects;
  }

  /** The phone rule counts characters, but the browser sends only the
      phone's digits: a valid form whose phone has no digit is charged, yet
      the notification endpoint skips provisioning for lack of a phone. */
  lemma {:induction false} PhoneWithoutDigitsSkipsProvisioning(
    form: Form, pm: PaymentMethod, card: Option<CardData>, meta: Meta, env: WH.WebhookEnv, n: WH.Notification, peer: Peer,
    p: PaymentRecord, membox: WH.MemboxReply, nowMs: nat, sha256: string -> string, encode: string -> string)
    requires Validate(form).valid && (pm == CreditCard ==> CP.CardComplete(card))
    requires forall k :: 0 <= k < |form.phone| ==> !IsDigit(form.phone[k])
    requires Present(env.mpAccessToken) && WH.PaymentIdOf(n).Some?
    requires var user := CS.RequestOf(form, pm, false, card, meta).user.value;
             p.status == Some("approved") && p.metadata == Some(CP.MetadataOf(user, Some(meta), CS.Items(false)))
    ensures CP.Check(Some(CS.RequestOf(form, pm, false, card, meta))).Accepted?
    ensures var r := WH.Handle(env, "POST", n, peer, WH.Fetched(true, p), membox, nowMs, sha256, encode);
            && r.response.body == WH.MemboxSkipped
            && WH.CountMemboxPosts(r.effects) == 0
  {
    ValidFormAccepted(form, pm, card, meta);
    DigitsOnlyNoDigits(form.phone);
    var u := WH.CustomerOf(p.metadata);
    assert u.phone == Some("");
    WH.ProvisionOnlyWhenApprovedAndComplete(env, "POST", n, peer, WH.Fetched(true, p), membox, nowMs, sha256, encode);
  }

  /** Such forms exist: ten dashes pass the phone rule, whatever the other
      fields hold as long as they pass theirs. */
  lemma PhoneOfDashesIsValid(form: Form)
    requires form.phone == "----------"
    requires NameOk(form.name) && EmailOk(form.email) && DocumentOk(form.document) && ZipCodeOk(form.zipCode)
    requires Filled(form.street) && Filled(form.number) && Filled(form.neighborhood)
    requires Filled(form.city) && Filled(form.state)
    ensures Validate(form).valid
    ensures forall k :: 0 <= k < |form.phone| ==> !IsDigit(form.phone[k])
  {
    ValidWhenAllRulesPass(form);
  }
}
