/** The JSON shapes exchanged between the browser, the create-payment endpoint
    and the payment gateway's stored metadata, and the product catalogue the
    client sends. A field that JavaScript may find `undefined` or `null` is an
    `Option`. */
module Wire {
  import opened Base

  /** The two payment methods; `Wire()` is the string that goes in JSON. */
  datatype PaymentMethod = Pix | CreditCard {
    function Wire(): string {
      match this
      case Pix => "pix"
      case CreditCard => "credit_card"
    }
  }

  /** The buyer block of a create-payment request. */
  datatype User = User(name: Option<string>, email: Option<string>, phone: Option<string>, document: Option<string>)

  /** One line item. `price` is in cents; `None` stands for a missing price. */
  datatype Item = Item(id: Option<string>, title: Option<string>, price: Option<int>)

  /** Browser attribution data (page URL, click id, pixel cookies, user agent). */
  datatype Meta = Meta(url: Option<string>, fbclid: Option<string>, fbp: Option<string>, fbc: Option<string>, userAgent: Option<string>)

  /** The tokenized-card block: the one-time token, the card bin, the chosen
      issuer and installment count, and the gateway's payment-method id. */
  datatype CardData = CardData(
    token: Option<string>,
    bin: Option<string>,
    issuerId: Option<string>,
    installments: Option<JsNum>,
    paymentMethodId: Option<string>)

  /** The body of `POST /api/create-payment`. */
  datatype RequestBody = RequestBody(
    user: Option<User>,
    items: Option<seq<Item>>,
    paymentMethod: Option<string>,
    card: Option<CardData>,
    meta: Option<Meta>)

  /** The JSON the create-payment endpoint answers with, as far as the
      client reads it. */
  datatype ResponseJson = ResponseJson(
    success: bool,
    error: Option<string>,
    message: Option<string>,
    paymentId: Option<string>,
    status: Option<string>,
    statusDetail: Option<string>,
    qrCode: Option<string>,
    qrCodeBase64: Option<string>,
    ticketUrl: Option<string>)

  const MainProductId: string := "curso-riqueza-001"
  const MainProductName: string := "Curso A Ciência de Ficar Rico"
  const MainProductPriceCents: int := 4700

  const UpsellProductId: string := "upsell-disabled"
  const UpsellProductName: string := ""
  const UpsellProductPriceCents: int := 0

  const Currency: string := "BRL"
}
