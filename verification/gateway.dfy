/** What the two serverless endpoints send to and read from the outside: the
    payment gateway's create-payment payload and payment record (with the
    metadata the checkout stores on it), the member-area provisioning
    payload, and the trace of outbound calls. */
module Gateway {
  import opened Base
  import opened Wire
  import opened Conversion

  /** The `metadata` object stored with a payment: the buyer as sent, the
      truthy attribution fields, the line items, and an amount the checkout
      never writes but the webhook falls back on. */
  datatype Metadata = Metadata(
    customerName: Option<string>,
    customerEmail: Option<string>,
    customerPhone: Option<string>,
    customerDocument: Option<string>,
    metaFbp: Option<string>,
    metaFbc: Option<string>,
    metaFbclid: Option<string>,
    metaUrl: Option<string>,
    metaUa: Option<string>,
    items: Option<seq<Item>>,
    transactionAmount: Option<JsNum>)

  /** `payer.identification` */
  datatype Identification = Identification(kind: string, number: string)

  datatype Payer = Payer(email: string, identification: Option<Identification>)

  /** The body of `POST /v1/payments`. The amount is in cents; the card-only
      fields are `None` on a pix payment. */
  datatype PaymentPayload = PaymentPayload(
    transactionAmountCents: int,
    description: string,
    payer: Payer,
    notificationUrl: Option<string>,
    metadata: Metadata,
    paymentMethodId: string,
    token: Option<string>,
    installments: Option<JsNum>,
    issuerId: Option<string>)

  /** One entry of a gateway error's `cause` list. */
  datatype Cause = Cause(code: Option<string>, description: Option<string>, detail: Option<string>)

  /** `point_of_interaction.transaction_data` of a pix payment. */
  datatype TransactionData = TransactionData(qrCode: Option<string>, qrCodeBase64: Option<string>, ticketUrl: Option<string>)

  /** The JSON the gateway answers with, for a created or fetched payment and
      for an error alike; the amount is in reais. */
  datatype PaymentRecord = PaymentRecord(
    id: Option<string>,
    status: Option<string>,
    statusDetail: Option<string>,
    message: Option<string>,
    error: Option<string>,
    cause: Option<seq<Cause>>,
    transactionData: Option<TransactionData>,
    transactionAmount: Option<JsNum>,
    metadata: Option<Metadata>)

  /** An HTTP exchange with the gateway: a rejected `fetch` or an unparseable
      body, or a parsed answer with its status. */
  datatype GatewayReply = GatewayThrew | GatewayAnswered(ok: bool, status: nat, data: PaymentRecord)

  /** A caught exception: its `message` and its `String(e)` rendering. */
  datatype Thrown = Thrown(message: Option<string>, rendered: string)

  /** `String(e?.message || e)` */
  function ThrownText(e: Thrown): (r: string)
    ensures Present(e.message) ==> r == e.message.value
    ensures !Present(e.message) ==> r == e.rendered
  {
    if Present(e.message) then e.message.value else e.rendered
  }

  /** The `customer` block of the provisioning payload. */
  datatype MemboxCustomer = MemboxCustomer(name: string, email: string, phone: string, document: string)

  /** The body posted to the member-area webhook. */
  datatype MemboxPayload = MemboxPayload(
    kind: string,
    customer: MemboxCustomer,
    productName: string,
    orderBumpIds: seq<string>,
    credential: string)

  /** An outbound call made by an endpoint. */
  datatype ServerEffect =
    | CreatePaymentCall(bearer: string, idempotencyKey: string, payload: PaymentPayload)
    | FetchPayment(bearer: string, url: string)
    | MetaPost(request: MetaRequest)
    | MemboxPost(url: string, membox: MemboxPayload)

  const PaymentsUrl: string := "https://api.mercadopago.com/v1/payments"

  /** `Bearer ${accessToken}` */
  function Bearer(token: string): string {
    "Bearer " + token
  }

  /** The conversion request, when the credentials are there, as a trace. */
  function ConversionEffects(env: MetaEnv, a: PurchaseArgs, nowMs: nat, sha256: string -> string, encode: string -> string)
    : (effects: seq<ServerEffect>)
    ensures |effects| <= 1
    ensures |effects| == 1 <==> Present(env.pixelId) && Present(env.accessToken)
    ensures |effects| == 1 ==> effects[0] == MetaPost(MetaPurchaseEvent(env, a, nowMs, sha256, encode).value)
  {
    match MetaPurchaseEvent(env, a, nowMs, sha256, encode)
    case None => []
    case Some(req) => [MetaPost(req)]
  }

  /** The number of conversion posts in a trace. */
  function CountMetaPosts(effects: seq<ServerEffect>): nat {
    if effects == [] then 0 else (if effects[0].MetaPost? then 1 else 0) + CountMetaPosts(effects[1..])
  }

  lemma {:induction false} CountMetaPostsAppend(a: seq<ServerEffect>, b: seq<ServerEffect>)
    ensures CountMetaPosts(a + b) == CountMetaPosts(a) + CountMetaPosts(b)
  {
    if a == [] {
      assert a + b == b;
    } else {
      assert (a + b)[1..] == a[1..] + b;
      CountMetaPostsAppend(a[1..], b);
    }
  }
}
