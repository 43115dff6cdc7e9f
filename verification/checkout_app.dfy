/** The page-level submit flow of App.tsx: `handleSubmit` as a sequence of
    `PaymentState` updates, the pix payment record it stores, the field
    errors it shows and the effects it performs. The reply of
    `processCheckout` is an input. */
module CheckoutApp {
  import opened Base
  import opened Wire
  import opened OrderForm
  import opened Tracking
  import opened CheckoutService

  /** The banner state of the page. */
  datatype PaymentState = PaymentState(paymentMethod: PaymentMethod, isProcessing: bool, isSuccess: bool, error: Option<string>)

  /** The pix charge shown to the buyer once it is created. */
  datatype PixPayment = PixPayment(paymentId: string, qrCode: Option<string>, qrCodeBase64: Option<string>, ticketUrl: Option<string>)

  /** The page state `handleSubmit` reads and writes. */
  datatype AppState = AppState(payment: PaymentState, pix: Option<PixPayment>, errors: map<Field, string>)

  const InitialPaymentState: PaymentState := PaymentState(Pix, false, false, None)
  const InitialApp: AppState := AppState(InitialPaymentState, None, map[])

  /** One submit: every `PaymentState` written, in order (the last is the
      final one), the final page state and the effects. */
  datatype SubmitRun = SubmitRun(history: seq<PaymentState>, state: AppState, effects: seq<Effect>)

  const DefaultErrorMessage: string := "Erro ao processar pagamento."

  /** The banner for a card payment that was created but not approved: the
      status (or `unknown`), then ` - ` and the detail when there is one. */
  function DeclineMessage(status: Option<string>, statusDetail: Option<string>): string {
    var s := if Present(status) then status.value else "unknown";
    if Present(statusDetail) then "Status do pagamento: " + s + " - " + statusDetail.value
    else "Status do pagamento: " + s
  }

  /** The banner for a thrown error: an `Error`'s message, else the default. */
  function ThrownMessage(e: Thrown): string {
    match e
    case ErrorObject(m) => m
    case NonError => DefaultErrorMessage
  }

  function WithError(s: PaymentState, error: Option<string>): PaymentState {
    s.(error := error)
  }

  /** What follows the service call: the states written after processing
      was switched on (the last one switches it off), the pix record and the
      effects after the call. */
  datatype Settlement = Settlement(tail: seq<PaymentState>, pix: Option<PixPayment>, effects: seq<Effect>)

  /** The `try`/`catch`/`finally` of `handleSubmit` once `processing` (with
      `isProcessing` set) has been written. */
  function Settle(
    processing: PaymentState, pix: Option<PixPayment>, paymentMethod: PaymentMethod,
    fbqPresent: bool, outcome: CheckoutOutcome): (t: Settlement)
    requires processing.isProcessing
    ensures |t.tail| >= 1
    ensures forall i :: 0 <= i < |t.tail| - 1 ==> t.tail[i].isProcessing
    ensures !t.tail[|t.tail| - 1].isProcessing
    ensures forall i :: 0 <= i < |t.tail| ==> t.tail[i].paymentMethod == processing.paymentMethod
    ensures paymentMethod == CreditCard || outcome.Threw? || !outcome.result.success ==> t.pix == pix
    ensures forall i :: 0 <= i < |t.effects| ==> !t.effects[i].CallProcessCheckout?
  {
    match outcome
    case Threw(e) =>
      var s3 := WithError(processing, Some(ThrownMessage(e)));
      Settlement([s3, s3.(isProcessing := false)], pix, [])
    case Returned(res) =>
      if !res.success then
        Settlement([processing.(isProcessing := false)], pix, [])
      else
        var pix' :=
          if paymentMethod == Pix && Present(res.paymentId)
          then Some(PixPayment(res.paymentId.value, res.qrCode, res.qrCodeBase64, res.ticketUrl))
          else pix;
        if paymentMethod == CreditCard && res.status == Some("approved") then
          Settlement([processing.(isProcessing := false)], pix',
                     TrackPurchase(fbqPresent, res.paymentId) + [Redirect(CardSuccessUrl, RedirectDelayMs)])
        else if paymentMethod == CreditCard then
          var s3 := WithError(processing.(isSuccess := false), Some(DeclineMessage(res.status, res.statusDetail)));
          Settlement([s3, s3.(isProcessing := false)], pix', [])
        else
          var s3 := processing.(isSuccess := true);
          Settlement([s3, s3.(isProcessing := false)], pix', [])
  }

  /** `handleSubmit(cardPaymentData)` with the page's current payment method;
      `outcome` is what `processCheckout(formData, paymentMethod, false, card)`
      resolved to or threw. */
  function HandleSubmit(
    app: AppState, form: Form, paymentMethod: PaymentMethod, card: Option<CardData>,
    fbqPresent: bool, outcome: CheckoutOutcome): (r: SubmitRun)
    ensures |r.history| >= 1 && r.state.payment == r.history[|r.history| - 1]
    // the error is cleared first, and nothing else changes then
    ensures r.history[0] == app.payment.(error := None)
    ensures r.state.errors == Validate(form).errors
    ensures forall i :: 0 <= i < |r.history| ==> r.history[i].paymentMethod == app.payment.paymentMethod
    // a valid form calls the service once, and processing ends on every path
    ensures Validate(form).valid ==>
              && |r.history| >= 3
              && r.history[1] == r.history[0].(isProcessing := true)
              && (forall i :: 1 <= i < |r.history| - 1 ==> r.history[i].isProcessing)
              && !r.state.payment.isProcessing
              && |r.effects| >= 1
              && r.effects[0] == CallProcessCheckout(form, paymentMethod, false, card)
              && (forall i :: 1 <= i < |r.effects| ==> !r.effects[i].CallProcessCheckout?)
    ensures paymentMethod == CreditCard ==> r.state.pix == app.pix
  {
    var s1 := WithError(app.payment, None);
    var v := Validate(form);
    if !v.valid then
      SubmitRun([s1], AppState(s1, app.pix, v.errors), [ScrollToTop])
    else
      var p := Proceed(s1, app.pix, form, paymentMethod, card, fbqPresent, outcome);
      SubmitRun(p.tail, AppState(p.tail[|p.tail| - 1], p.pix, v.errors), p.effects)
  }

  /** The valid-form path of `handleSubmit` from the cleared state `s1`: the
      whole state history, the pix record and the effects. */
  function Proceed(
    s1: PaymentState, pix: Option<PixPayment>, form: Form, paymentMethod: PaymentMethod, card: Option<CardData>,
    fbqPresent: bool, outcome: CheckoutOutcome): (p: Settlement)
    ensures |p.tail| >= 3 && p.tail[0] == s1 && p.tail[1] == s1.(isProcessing := true)
    ensures forall i :: 1 <= i < |p.tail| - 1 ==> p.tail[i].isProcessing
    ensures !p.tail[|p.tail| - 1].isProcessing
    ensures forall i :: 0 <= i < |p.tail| ==> p.tail[i].paymentMethod == s1.paymentMethod
    ensures |p.effects| >= 1 && p.effects[0] == CallProcessCheckout(form, paymentMethod, false, card)
    ensures forall i :: 1 <= i < |p.effects| ==> !p.effects[i].CallProcessCheckout?
    ensures paymentMethod == CreditCard ==> p.pix == pix
  {
    var s2 := s1.(isProcessing := true);
    var t := Settle(s2, pix, paymentMethod, fbqPresent, outcome);
    var history := [s1, s2] + t.tail;
    assert forall i :: 2 <= i < |history| ==> history[i] == t.tail[i - 2];
    var effects := [CallProcessCheckout(form, paymentMethod, false, card)] + t.effects;
    assert forall i :: 1 <= i < |effects| ==> effects[i] == t.effects[i - 1];
    Settlement(history, t.pix, effects)
  }

  /** An invalid form scrolls up and goes no further: processing is never
      switched on and the service is not called. */
  lemma SubmitInvalid(
    app: AppState, form: Form, paymentMethod: PaymentMethod, card: Option<CardData>,
    fbqPresent: bool, outcome: CheckoutOutcome)
    requires !Validate(form).valid
    ensures var r := HandleSubmit(app, form, paymentMethod, card, fbqPresent, outcome);
            && r.history == [app.payment.(error := None)]
            && r.effects == [ScrollToTop]
            && r.state.pix == app.pix
  {
  }

  /** A thrown error becomes the banner; the success flag is left alone. */
  lemma SubmitThrown(
    app: AppState, form: Form, paymentMethod: PaymentMethod, card: Option<CardData>,
    fbqPresent: bool, outcome: CheckoutOutcome)
    requires Validate(form).valid && outcome.Threw?
    ensures var r := HandleSubmit(app, form, paymentMethod, card, fbqPresent, outcome);
            && r.state.payment == app.payment.(error := Some(ThrownMessage(outcome.error)), isProcessing := false)
            && r.effects == [CallProcessCheckout(form, paymentMethod, false, card)]
            && r.state.pix == app.pix
  {
  }

  /** A reply with `success: false` shows nothing: no banner, no success. */
  lemma SubmitNotSuccessful(
    app: AppState, form: Form, paymentMethod: PaymentMethod, card: Option<CardData>,
    fbqPresent: bool, outcome: CheckoutOutcome)
    requires Validate(form).valid && outcome.Returned? && !outcome.result.success
    ensures var r := HandleSubmit(app, form, paymentMethod, card, fbqPresent, outcome);
            && r.state.payment == app.payment.(error := None, isProcessing := false)
            && r.effects == [CallProcessCheckout(form, paymentMethod, false, card)]
            && r.state.pix == app.pix
  {
  }

  /** An approved card payment fires Purchase (with the payment id as event
      id) and schedules the card thank-you redirect. */
  lemma SubmitCardApproved(
    app: AppState, form: Form, card: Option<CardData>,
    fbqPresent: bool, outcome: CheckoutOutcome)
    requires Validate(form).valid && outcome.Returned? && outcome.result.success
    requires outcome.result.status == Some("approved")
    ensures var r := HandleSubmit(app, form, CreditCard, card, fbqPresent, outcome);
            && r.state.payment == app.payment.(error := None, isProcessing := false)
            && r.effects == [CallProcessCheckout(form, CreditCard, false, card)]
                            + TrackPurchase(fbqPresent, outcome.result.paymentId)
                            + [Redirect(CardSuccessUrl, RedirectDelayMs)]
            && r.state.pix == app.pix
  {
  }

  /** Any other card status becomes the banner, and the payment is not a
      success. */
  lemma SubmitCardDeclined(
    app: AppState, form: Form, card: Option<CardData>,
    fbqPresent: bool, outcome: CheckoutOutcome)
    requires Validate(form).valid && outcome.Returned? && outcome.result.success
    requires outcome.result.status != Some("approved")
    ensures var r := HandleSubmit(app, form, CreditCard, card, fbqPresent, outcome);
            && r.state.payment == app.payment.(error := Some(DeclineMessage(outcome.result.status, outcome.result.statusDetail)),
                                               isSuccess := false, isProcessing := false)
            && r.effects == [CallProcessCheckout(form, CreditCard, false, card)]
            && r.state.pix == app.pix
  {
  }

  /** A created pix charge is stored when it has an id, and the payment is
      marked as a success either way. */
  lemma SubmitPix(
    app: AppState, form: Form, card: Option<CardData>,
    fbqPresent: bool, outcome: CheckoutOutcome)
    requires Validate(form).valid && outcome.Returned? && outcome.result.success
    ensures var r := HandleSubmit(app, form, Pix, card, fbqPresent, outcome);
            var res := outcome.result;
            && r.state.payment == app.payment.(error := None, isProcessing := false, isSuccess := true)
            && r.effects == [CallProcessCheckout(form, Pix, false, card)]
            && (Present(res.paymentId) ==>
                  r.state.pix == Some(PixPayment(res.paymentId.value, res.qrCode, res.qrCodeBase64, res.ticketUrl)))
            && (!Present(res.paymentId) ==> r.state.pix == app.pix)
  {
  }

  /** The decline banner keeps the status text and the detail apart: the
      banner names the status given (or `unknown`), and it carries the
      ` - {detail}` tail exactly when a detail is present. */
  lemma DeclineMessageParts(status: Option<string>, statusDetail: Option<string>)
    ensures var m := DeclineMessage(status, statusDetail);
            var s := if Present(status) then status.value else "unknown";
            var head := "Status do pagamento: " + s;
            && |m| >= |head| && m[..|head|] == head
            && (Present(statusDetail) <==> |m| > |head|)
            && (Present(statusDetail) ==> m[|head|..] == " - " + statusDetail.value)
  {
  }

  /** After the service call, at most one Purchase event and at most one
      redirect are scheduled, and a redirect exactly for an approved card. */
  lemma {:induction false} SettleSchedulesAtMostOnce(
    processing: PaymentState, pix: Option<PixPayment>, paymentMethod: PaymentMethod,
    fbqPresent: bool, outcome: CheckoutOutcome)
    requires processing.isProcessing
    ensures var t := Settle(processing, pix, paymentMethod, fbqPresent, outcome);
            && CountRedirects(t.effects) <= 1
            && CountPixel(t.effects, "Purchase") <= 1
            && (CountRedirects(t.effects) == 1 <==>
                  (outcome.Returned? && outcome.result.success
                   && paymentMethod == CreditCard && outcome.result.status == Some("approved")))
  {
    var t := Settle(processing, pix, paymentMethod, fbqPresent, outcome);
    if outcome.Returned? && outcome.result.success
       && paymentMethod == CreditCard && outcome.result.status == Some("approved") {
      var track := TrackPurchase(fbqPresent, outcome.result.paymentId);
      var redirect := [Redirect(CardSuccessUrl, RedirectDelayMs)];
      assert t.effects == track + redirect;
      CountRedirectsAppend(track, redirect);
      CountPixelAppend(track, redirect, "Purchase");
      assert CountRedirects(redirect) == 1 && CountPixel(redirect, "Purchase") == 0;
      if fbqPresent {
        assert track == [track[0]];
        assert CountRedirects(track) == 0 && CountPixel(track, "Purchase") == 1;
      } else {
        assert track == [];
      }
    } else {
      assert t.effects == [];
    }
  }

  /** A whole submit schedules at most one Purchase event and at most one
      redirect, and the redirect exactly for a valid form whose card payment
      came back approved. */
  lemma {:induction false} SubmitSchedulesAtMostOnce(
    app: AppState, form: Form, paymentMethod: PaymentMethod, card: Option<CardData>,
    fbqPresent: bool, outcome: CheckoutOutcome)
    ensures var r := HandleSubmit(app, form, paymentMethod, card, fbqPresent, outcome);
            && CountRedirects(r.effects) <= 1
            && CountPixel(r.effects, "Purchase") <= 1
            && (CountRedirects(r.effects) == 1 <==>
                  (Validate(form).valid && outcome.Returned? && outcome.result.success
                   && paymentMethod == CreditCard && outcome.result.status == Some("approved")))
  {
    var r := HandleSubmit(app, form, paymentMethod, card, fbqPresent, outcome);
    if !Validate(form).valid {
      assert r.effects == [ScrollToTop];
      assert CountRedirects([ScrollToTop]) == 0 && CountPixel([ScrollToTop], "Purchase") == 0;
    } else {
      var processing := app.payment.(error := None, isProcessing := true);
      var call := [CallProcessCheckout(form, paymentMethod, false, card)];
      var t := Settle(processing, app.pix, paymentMethod, fbqPresent, outcome);
      assert r.effects == call + t.effects;
      SettleSchedulesAtMostOnce(processing, app.pix, paymentMethod, fbqPresent, outcome);
      CountRedirectsAppend(call, t.effects);
      CountPixelAppend(call, t.effects, "Purchase");
      assert CountRedirects(call) == 0 && CountPixel(call, "Purchase") == 0;
    }
  }
}
