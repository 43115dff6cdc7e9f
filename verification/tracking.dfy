/** What the browser side of the checkout does to the outside world, as a
    trace of effects, and the tracking emitter around the analytics pixel
    (`trackFbEvent` and the once-only `InitiateCheckout` in App.tsx). */
module Tracking {
  import opened Base
  import opened Wire
  import opened OrderForm

  /** One call `fbq('track', name, { value, currency }, eventID?)`; the value
      is in cents. */
  datatype PixelEvent = PixelEvent(name: string, valueCents: int, currency: string, eventId: Option<string>)

  /** The side effects the client performs, in the order they happen. */
  datatype Effect =
    | Pixel(event: PixelEvent)
    | Redirect(url: string, delayMs: nat)
    | ScrollToTop
    | CallProcessCheckout(form: Form, paymentMethod: PaymentMethod, hasUpsell: bool, card: Option<CardData>)
    | QueryPaymentMethods(bin: string)
    | QueryIssuers(paymentMethodId: Option<string>, bin: string)
    | QueryInstallments(bin: string, amount: real, paymentMethodId: Option<string>)
    | Tokenize(cardholderName: string, identificationType: string, identificationNumber: string)
    | Submit(cardData: CardData)
    | FetchStatus(paymentId: string)

  const CardSuccessUrl: string := "https://www.xandr.com.br/obrigado-trafegoadsense"
  const PixSuccessUrl: string := "https://www.xandr.com.br/obrigado-rico"
  const RedirectDelayMs: nat := 800

  /** `trackFbEvent(name, { value: 47.00, currency: 'BRL' })`: one pixel call
      when the pixel function exists, nothing otherwise (a throwing pixel is
      ignored). */
  function TrackEvent(fbqPresent: bool, name: string): (effects: seq<Effect>)
    ensures fbqPresent ==> effects == [Pixel(PixelEvent(name, MainProductPriceCents, Currency, None))]
    ensures !fbqPresent ==> effects == []
  {
    if fbqPresent then [Pixel(PixelEvent(name, MainProductPriceCents, Currency, None))] else []
  }

  /** The Purchase call of the card-approval and pix-approval paths: with the
      pixel present it carries the payment id as event id when that id is
      truthy; without the pixel the fallback `trackFbEvent` does nothing. */
  function TrackPurchase(fbqPresent: bool, paymentId: Option<string>): (effects: seq<Effect>)
    ensures |effects| <= 1
    ensures fbqPresent <==> |effects| == 1
    ensures fbqPresent ==>
              && effects[0].Pixel? && effects[0].event.name == "Purchase"
              && effects[0].event.valueCents == 4700 && effects[0].event.currency == "BRL"
              && (effects[0].event.eventId.Some? <==> Present(paymentId))
              && (Present(paymentId) ==> effects[0].event.eventId == paymentId)
  {
    if fbqPresent then [Pixel(PixelEvent("Purchase", MainProductPriceCents, Currency, Truthy(paymentId)))] else []
  }

  /** The number of pixel events named `name` in a trace. */
  function CountPixel(effects: seq<Effect>, name: string): nat {
    if effects == [] then 0
    else (if effects[0].Pixel? && effects[0].event.name == name then 1 else 0) + CountPixel(effects[1..], name)
  }

  lemma {:induction false} CountPixelAppend(a: seq<Effect>, b: seq<Effect>, name: string)
    ensures CountPixel(a + b, name) == CountPixel(a, name) + CountPixel(b, name)
  {
    if a == [] {
      assert a + b == b;
    } else {
      assert (a + b)[1..] == a[1..] + b;
      CountPixelAppend(a[1..], b, name);
    }
  }

  /** The number of redirects scheduled in a trace. */
  function CountRedirects(effects: seq<Effect>): nat {
    if effects == [] then 0
    else (if effects[0].Redirect? then 1 else 0) + CountRedirects(effects[1..])
  }

  lemma {:induction false} CountRedirectsAppend(a: seq<Effect>, b: seq<Effect>)
    ensures CountRedirects(a + b) == CountRedirects(a) + CountRedirects(b)
  {
    if a == [] {
      assert a + b == b;
    } else {
      assert (a + b)[1..] == a[1..] + b;
      CountRedirectsAppend(a[1..], b);
    }
  }

  /** One run of the mount effect that fires `InitiateCheckout`: it sets the
      ref and tracks only when the ref was still clear. */
  function InitiateCheckout(tracked: bool, fbqPresent: bool): (r: (bool, seq<Effect>))
    ensures r.0
    ensures tracked ==> r.1 == []
    ensures !tracked ==> r.1 == TrackEvent(fbqPresent, "InitiateCheckout")
  {
    if tracked then (true, []) else (true, TrackEvent(fbqPresent, "InitiateCheckout"))
  }

  /** `n` runs of the mount effect against the same ref. */
  function InitiateRuns(tracked: bool, fbqPresent: bool, n: nat): (r: (bool, seq<Effect>))
    decreases n
  {
    if n == 0 then (tracked, [])
    else
      var first := InitiateCheckout(tracked, fbqPresent);
      var rest := InitiateRuns(first.0, fbqPresent, n - 1);
      (rest.0, first.1 + rest.1)
  }

  /** However often the effect runs, `InitiateCheckout` is tracked at most
      once, and not at all once the ref is set. */
  lemma {:induction false} InitiateCheckoutAtMostOnce(tracked: bool, fbqPresent: bool, n: nat)
    ensures |InitiateRuns(tracked, fbqPresent, n).1| <= 1
    ensures tracked ==> InitiateRuns(tracked, fbqPresent, n).1 == []
    ensures n > 0 ==> InitiateRuns(tracked, fbqPresent, n).0
    decreases n
  {
    if n > 0 {
      InitiateCheckoutAtMostOnce(true, fbqPresent, n - 1);
    }
  }
}
