/** The pix status poller of components/CheckoutForm.tsx: `checkPixStatus`
    with its once-only Purchase flag, a run of interval ticks, and the
    condition under which the interval is installed. */
module PixPoller {
  import opened Base
  import opened Wire
  import opened Tracking
  import opened CheckoutApp

  /** The poller's state: the Purchase-tracked ref, the last status shown and
      the checking flag. */
  datatype PollerState = PollerState(purchaseTracked: bool, pixStatus: Option<string>, checking: bool)

  const InitialPoller: PollerState := PollerState(false, None, false)

  /** What `fetch('/api/payment-status?id=…')` and its JSON gave: a failure
      (ignored), or the `status` field. */
  datatype StatusReply = StatusFailed | StatusAnswered(status: Option<string>)

  predicate Approved(reply: StatusReply) {
    reply.StatusAnswered? && reply.status == Some("approved")
  }

  /** One `checkPixStatus()` call. */
  function CheckPixStatus(s: PollerState, pix: Option<PixPayment>, fbqPresent: bool, reply: StatusReply): (r: (PollerState, seq<Effect>))
    // without a pix payment id nothing happens
    ensures !(pix.Some? && pix.value.paymentId != []) ==> r == (s, [])
    ensures pix.Some? && pix.value.paymentId != [] ==>
              && !r.0.checking
              && |r.1| >= 1 && r.1[0] == FetchStatus(pix.value.paymentId)
              && (reply.StatusAnswered? ==> r.0.pixStatus == Truthy(reply.status))
              && (reply.StatusFailed? ==> r.0.pixStatus == s.pixStatus && r.1 == [FetchStatus(pix.value.paymentId)])
              // approval: Purchase the first time only, and a redirect every time
              && (Approved(reply) ==>
                    && r.0.purchaseTracked
                    && r.1 == [FetchStatus(pix.value.paymentId)]
                              + (if s.purchaseTracked then [] else TrackPurchase(fbqPresent, Some(pix.value.paymentId)))
                              + [Redirect(PixSuccessUrl, RedirectDelayMs)])
              && (!Approved(reply) ==> r.0.purchaseTracked == s.purchaseTracked && r.1 == [FetchStatus(pix.value.paymentId)])
  {
    if !(pix.Some? && pix.value.paymentId != []) then (s, [])
    else
      var id := pix.value.paymentId;
      var fetch := [FetchStatus(id)];
      match reply
      case StatusFailed => (s.(checking := false), fetch)
      case StatusAnswered(status) =>
        var shown := s.(pixStatus := Truthy(status));
        if status == Some("approved") then
          var purchase := if s.purchaseTracked then [] else TrackPurchase(fbqPresent, Some(id));
          (shown.(purchaseTracked := true, checking := false), fetch + purchase + [Redirect(PixSuccessUrl, RedirectDelayMs)])
        else (shown.(checking := false), fetch)
  }

  /** The calls made by successive interval ticks, one reply per tick. */
  function RunPolls(s: PollerState, pix: Option<PixPayment>, fbqPresent: bool, replies: seq<StatusReply>): (r: (PollerState, seq<Effect>))
    decreases |replies|
  {
    if replies == [] then (s, [])
    else
      var first := CheckPixStatus(s, pix, fbqPresent, replies[0]);
      var rest := RunPolls(first.0, pix, fbqPresent, replies[1..]);
      (rest.0, first.1 + rest.1)
  }

  /** The number of approved replies. */
  function CountApproved(replies: seq<StatusReply>): nat {
    if replies == [] then 0 else (if Approved(replies[0]) then 1 else 0) + CountApproved(replies[1..])
  }

  lemma CheckPixStatusCounts(s: PollerState, pix: Option<PixPayment>, fbqPresent: bool, reply: StatusReply)
    ensures var r := CheckPixStatus(s, pix, fbqPresent, reply);
            && (r.0.purchaseTracked <==> s.purchaseTracked || (pix.Some? && pix.value.paymentId != [] && Approved(reply)))
            && CountPixel(r.1, "Purchase") == (if !s.purchaseTracked && r.0.purchaseTracked && fbqPresent then 1 else 0)
            && CountRedirects(r.1) == (if pix.Some? && pix.value.paymentId != [] && Approved(reply) then 1 else 0)
  {
    var r := CheckPixStatus(s, pix, fbqPresent, reply);
    if pix.Some? && pix.value.paymentId != [] {
      var id := pix.value.paymentId;
      var fetch := [FetchStatus(id)];
      assert CountPixel(fetch, "Purchase") == 0 && CountRedirects(fetch) == 0;
      if Approved(reply) {
        var purchase := if s.purchaseTracked then [] else TrackPurchase(fbqPresent, Some(id));
        var redirect := [Redirect(PixSuccessUrl, RedirectDelayMs)];
        CountPixelAppend(fetch + purchase, redirect, "Purchase");
        CountPixelAppend(fetch, purchase, "Purchase");
        CountRedirectsAppend(fetch + purchase, redirect);
        CountRedirectsAppend(fetch, purchase);
        assert CountPixel(redirect, "Purchase") == 0 && CountRedirects(redirect) == 1;
        if purchase != [] {
          assert purchase == [purchase[0]];
        }
      }
    }
  }

  /** However many polls come back approved, Purchase fires at most once (and
      not at all once it was tracked), while the thank-you redirect is
      scheduled again on every approved poll. */
  lemma {:induction false} PurchaseAtMostOnce(s: PollerState, pix: Option<PixPayment>, fbqPresent: bool, replies: seq<StatusReply>)
    ensures var r := RunPolls(s, pix, fbqPresent, replies);
            && CountPixel(r.1, "Purchase") <= 1
            && (s.purchaseTracked ==> CountPixel(r.1, "Purchase") == 0)
            && (s.purchaseTracked ==> r.0.purchaseTracked)
            && CountRedirects(r.1) == (if pix.Some? && pix.value.paymentId != [] then CountApproved(replies) else 0)
    decreases |replies|
  {
    if replies != [] {
      var first := CheckPixStatus(s, pix, fbqPresent, replies[0]);
      var rest := RunPolls(first.0, pix, fbqPresent, replies[1..]);
      CheckPixStatusCounts(s, pix, fbqPresent, replies[0]);
      PurchaseAtMostOnce(first.0, pix, fbqPresent, replies[1..]);
      CountPixelAppend(first.1, rest.1, "Purchase");
      CountRedirectsAppend(first.1, rest.1);
    }
  }

  /** The interval is installed when there is a pix payment id, pix is the
      chosen method and the shown status is not yet `approved`. The check
      runs only when the payment id or the method changes, so an approval
      seen by a poll does not stop the interval. */
  predicate PollingActive(pix: Option<PixPayment>, paymentMethod: PaymentMethod, pixStatus: Option<string>) {
    pix.Some? && pix.value.paymentId != [] && paymentMethod == Pix && pixStatus != Some("approved")
  }

  /** Under an installed interval, a poll leaves the install condition
      holding exactly when it did not see an approval: only an approved
      status would keep a re-run of the effect from installing it again. */
  lemma PollingActiveAfterPoll(s: PollerState, pix: Option<PixPayment>, fbqPresent: bool, reply: StatusReply)
    requires PollingActive(pix, Pix, s.pixStatus)
    ensures PollingActive(pix, Pix, CheckPixStatus(s, pix, fbqPresent, reply).0.pixStatus) <==> !Approved(reply)
  {
  }

  /** Once the page has the pix charge of a successful pix submit, the
      interval starts polling for it. */
  lemma PollingStartsAfterPixSubmit(
    app: AppState, form: OrderForm.Form, card: Option<CardData>, fbqPresent: bool, outcome: CheckoutService.CheckoutOutcome)
    requires OrderForm.Validate(form).valid && outcome.Returned? && outcome.result.success
    requires Present(outcome.result.paymentId)
    ensures PollingActive(HandleSubmit(app, form, Pix, card, fbqPresent, outcome).state.pix, Pix, None)
  {
    SubmitPix(app, form, card, fbqPresent, outcome);
  }
}
