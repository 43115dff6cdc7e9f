# Single-product checkout: a Dafny model

This project models the payment orchestration of a single-product checkout
(the course "Curso A Ciência de Ficar Rico", 47.00 BRL). The buyer pays by
pix, an instant bank-transfer code, or by a tokenized credit card, through
the Mercado Pago gateway. Six parts are modelled.

- **The order form and its validator** (`OrderForm`): one rule per field.
  The address fields must not be blank, the document and postal code are
  checked by digit count, and the e-mail by shape.
- **The submit flow of the page** (`CheckoutApp`, `Tracking`). This is the
  sequence of `PaymentState` writes (`isProcessing`, `isSuccess`, `error`),
  the stored pix charge, the analytics pixel events (`InitiateCheckout` once
  per page, `Purchase` on approval) and the thank-you redirects.
- **The card side of the form** (`CardForm`): the installment resolver, the
  reset on a card-bin change, the mount and teardown of the card fields, and
  the guard ladder before the card is tokenized.
- **The pix status poller** (`PixPoller`): the once-only Purchase flag, and
  when the interval is installed.
- **The browser's request builder** (`CheckoutService`): the cookie lookup,
  the `fbc` click-id rule, the line items, the request body, and how the
  HTTP reply becomes a result or a thrown error.
- **The two serverless endpoints** (`CreatePayment`, `Webhook`, with
  `Conversion` and `Gateway`).
  - The payment-creation handler checks the request, shapes the gateway
    payload, maps gateway errors to a message, and sends the server-side
    Purchase conversion for an approved card.
  - The gateway's notification handler re-fetches the payment. When it is
    approved, it sends the conversion and provisions the buyer in the
    member area (Membox).

Every handler is a pure function. Its inputs are the environment variables,
the request, and the replies of the outside world: `fetch`, the gateway, the
browser SDK and Membox. Its result is the response plus a trace of the
calls it made (`Gateway.ServerEffect` on the server, `Tracking.Effect` in
the browser). SHA-256, `encodeURIComponent` and `decodeURIComponent` are
function parameters. `Date.now()` and `crypto.randomUUID()` are value
parameters. Money is in integer cents. Numbers that can be NaN or infinite
(SDK fields, the webhook amount) are `Base.JsNum`. JavaScript string
truthiness is `Base.Present`.

`Scenarios` ties the pieces together. Each end-to-end lemma feeds the
request the browser builds into the endpoint, and the endpoint's answer back
into the page.

### Where the code differs from the documented design

The model follows the code in each case.

- A successful pix charge sets `isSuccess` to true (App.tsx:177). The design
  says it stays false until the poller or the webhook confirms the payment.
- The name rule rejects a raw length (in UTF-16 code units) below 3, or a name that is all white
  space (App.tsx:66). It does not test the trimmed length, so `" ab"` passes.
- The interval's dependencies are the payment id and the method only
  (components/CheckoutForm.tsx:150-163). An approval seen by a poll
  therefore does not stop polling, and every approved poll schedules the
  redirect again. The Purchase event still fires only once.
- The webhook takes `data.id ?? data.payment_id ?? query.id` before testing
  truthiness (api/webhooks/mercadopago.js:154). An empty `data.id` hides the
  other two, and the notification is ignored (`Webhook.EmptyIdShadowsFallbacks`).

One consequence of the code as written is proved, not corrected. The phone
rule counts characters, while the browser sends only the phone's digits. A
valid form whose phone holds no digit, such as ten dashes, is therefore
charged, but the webhook skips provisioning for lack of a phone
(`Scenarios.PhoneWithoutDigitsSkipsProvisioning`, `Scenarios.PhoneOfDashesIsValid`).

A second consequence concerns the card installments. `onBinChange` is
created by the mount effect, whose only dependency is the payment method
(components/CheckoutForm.tsx:315-435). Its call to `refreshInstallments`
therefore compares the new options with the selection of that render, not
the current one. A stale comparison can keep a selection the new card does
not offer (`CardForm.StaleSelectionSurvives`). The effect that refreshes on
every bin or method change uses the current selection and repairs this when
it settles last (`CardForm.BinChangeThenEffectConsistent`).

## Model

| member | source | states |
|---|---|---|
| OrderForm.Validate | App.tsx:62-122 | The returned flag is true iff no error was recorded. A field has an error iff it is one of the ten checked fields and fails its rule, and that error is the field's own message. The complement never gets one. |
| OrderForm.Errors | App.tsx:63-118 | After checking a list of fields, the error object holds exactly the failing fields of that list, each with its message. |
| OrderForm.AllPassIffNoErrors | App.tsx:64-121 | The running `isValid` flag stays true iff the error object stays empty: every cleared flag is paired with a recorded error, and the reverse. |
| OrderForm.NameRule | App.tsx:66-69 | The name is rejected iff its raw length in UTF-16 code units (`.length`) is below 3 or it consists of white space only. |
| OrderForm.EmailRule | App.tsx:71-75 | The e-mail pattern accepts exactly the addresses with no white space, a single `@` that is not first, and a later `.` that neither touches the `@` nor ends the address. |
| OrderForm.PhoneRule | App.tsx:77-80 | The phone is rejected iff its raw length in UTF-16 code units is below 10; an empty phone is included, and digits are not counted. |
| OrderForm.AstralCharactersCountTwice | App.tsx:66-80 | A character above U+FFFF counts as two: two emoji make an acceptable name, and five an acceptable phone. |
| OrderForm.DigitRules | App.tsx:82-93 | The document passes iff it holds 11 or 14 digits, whatever punctuation surrounds them. The postal code passes iff it holds 8 digits. |
| OrderForm.AddressRule | App.tsx:95-118 | Street, number, neighbourhood, city and state each get an error iff they are blank. |
| OrderForm.ComplementUnchecked | App.tsx:62-122 | Whatever the complement holds, the validation outcome is the same. |
| OrderForm.ValidWhenAllRulesPass | App.tsx:62-122 | A form whose every rule passes is valid. |
| Tracking.TrackEvent | App.tsx:41-49 | There is one pixel event of 47.00 BRL with the given name when the pixel function exists, and nothing otherwise. |
| Tracking.TrackPurchase | App.tsx:148-159 | There is at most one event, present iff the pixel exists: a Purchase of 4700 cents in BRL. It carries the payment id as event id exactly when the id is truthy. |
| Tracking.InitiateCheckout | App.tsx:51-59 | A run of the mount effect always leaves the ref set. It tracks InitiateCheckout only when the ref was still clear. |
| Tracking.InitiateCheckoutAtMostOnce | App.tsx:51-59 | However many times the effect runs, InitiateCheckout is tracked at most once, and never when the ref was already set. |
| CheckoutService.CookieParts | services/mockService.ts:19 | There is one part per `;`-separated piece of the cookie string, each trimmed. |
| CheckoutService.FirstWithPrefix | services/mockService.ts:21 | The result is the index of the first part that starts with the prefix. No earlier part does. |
| CheckoutService.GetCookie | services/mockService.ts:16-27 | The result is undefined when no trimmed part starts with `name=`. Otherwise it is the decoding of the rest of the first part that does; a failed decode is undefined. |
| CheckoutService.FbClickData | services/mockService.ts:29-41 | The URL, click id and user agent pass through, and `fbp` is the `_fbp` cookie. `fbc` is the truthy `_fbc` cookie; otherwise `fb.1.{seconds}.{fbclid}` when the click id is truthy; otherwise undefined. |
| CheckoutService.SynthesizedFbcShape | services/mockService.ts:35 | A synthesized `fbc` splits on `.` into `fb`, `1`, the decimal seconds and the click id. The seconds read back as `floor(now / 1000)`. |
| CheckoutService.Items | services/mockService.ts:43-46 | The main product comes first. There is a second item, the upsell, iff the upsell was chosen. |
| CheckoutService.RequestOf | services/mockService.ts:50-65 | Name and e-mail are sent as typed, and phone and document as their digits. The body carries the items and the method's wire name. The card block is sent only for a card payment. |
| CheckoutService.FailureMessage | services/mockService.ts:67-76 | A non-ok reply throws the body's `error`, else its `message`, else `Payment creation failed ({status})`. The last also applies when the body did not parse. |
| CheckoutService.ProcessCheckout | services/mockService.ts:5-89 | The request sent is the request body with the click data. A network failure, a non-ok reply or unparseable JSON throws its message. An ok reply returns the body's fields, with a message chosen by the `success` flag alone. |
| CheckoutApp.HandleSubmit | App.tsx:124-185 | The first write clears the error, the errors shown are the validator's, and the method never changes. For a valid form: processing switches on, stays on until the last write and is off at the end. There is one service call, made first. A card submit leaves the pix charge alone. |
| CheckoutApp.Proceed | App.tsx:132-184 | On the valid-form path the history starts with the cleared state and then the processing one, and ends with processing off. The only service call is the first effect. |
| CheckoutApp.Settle | App.tsx:134-184 | Every write before the last keeps processing on, and the last switches it off. The pix charge is unchanged for a card, a thrown error or an unsuccessful reply. No further service call is made. |
| CheckoutApp.SubmitInvalid | App.tsx:125-130 | An invalid form clears the error and scrolls up, and nothing else happens: processing is never switched on and the service is not called. |
| CheckoutApp.SubmitThrown | App.tsx:179-184 | A thrown `Error` shows its message (anything else thrown shows the default text), processing ends, and the success flag is untouched. |
| CheckoutApp.SubmitNotSuccessful | App.tsx:137 | A reply with `success: false` sets no error and no success, and only ends processing. |
| CheckoutApp.SubmitCardApproved | App.tsx:147-167 | An approved card payment fires Purchase with the payment id and schedules the card thank-you page after 800 ms. The banner stays empty. |
| CheckoutApp.SubmitCardDeclined | App.tsx:169-175 | Any other card status shows the decline banner and leaves `isSuccess` false. |
| CheckoutApp.SubmitPix | App.tsx:137-178 | A successful pix reply stores the charge when its id is truthy and keeps the old record otherwise. `isSuccess` becomes true. |
| CheckoutApp.DeclineMessageParts | App.tsx:170-172 | The decline banner starts with `Status do pagamento: ` and the status, or `unknown`. It ends in ` - {detail}` exactly when a detail is present. |
| CheckoutApp.SettleSchedulesAtMostOnce | App.tsx:147-167 | After the call, at most one Purchase and at most one redirect are scheduled. There is a redirect iff the card payment was approved. |
| CheckoutApp.SubmitSchedulesAtMostOnce | App.tsx:124-185 | A whole submit schedules at most one Purchase and at most one redirect. There is a redirect iff the form is valid and the card payment came back approved. |
| CardForm.MapPayerCosts | components/CheckoutForm.tsx:215-223 | There are no more options than payer costs, and every option offers between 1 and 12 installments. |
| CardForm.MapPayerCostsAppend | components/CheckoutForm.tsx:215-223 | The mapping works entry by entry, so the options keep the order of the payer costs. |
| CardForm.MapPayerCostsMembers | components/CheckoutForm.tsx:215-223 | Every option is the image of an eligible payer cost (finite, 1 to 12 installments), and every eligible payer cost yields an option. |
| CardForm.MapPayerCostsEmpty | components/CheckoutForm.tsx:215-226 | The options are empty iff no payer cost is eligible. |
| CardForm.Reselect | components/CheckoutForm.tsx:227-229 | When the selection the closure captured is offered, the state's selection is left as it is. Otherwise it becomes the first option's count, or 1 when there are no options. |
| CardForm.RefreshInstallments | components/CheckoutForm.tsx:165-238 | A missing key or SDK, or a bad amount, marks the installments unavailable; a short bin marks them available. None of these asks the SDK. Otherwise there is exactly one query. A usable answer gives the eligible options, re-selected against the closure's captured selection, and unavailable iff there are none. With a closure that sees the current selection, the selection ends consistent with the options. Anything else gives no options, selection 1, unavailable. Only the installment fields change. |
| CardForm.RefreshKeepsSelectionConsistent | components/CheckoutForm.tsx:165-238 | Whatever the SDK answers, a refresh whose closure sees the current selection keeps it one the selector offers, or 1 when it offers none. |
| CardForm.StaleSelectionSurvives | components/CheckoutForm.tsx:225-229 | A closure that captured an older selection can leave an unoffered one in place: with 3 selected and 1 captured, an answer offering 1 and 2 keeps 3. |
| CardForm.ApplyIssuers | components/CheckoutForm.tsx:380-388 | A non-empty issuer list is stored whole, in order, with the first issuer's id selected. Otherwise no issuer is selected or stored. Nothing else changes. |
| CardForm.OnBinChange | components/CheckoutForm.tsx:362-403 | The bin is stored as given, or as empty. The refresh it makes reads the selection captured when the fields were mounted; a consistent selection stays consistent when that captured value is still the current one. The only calls are SDK lookups. |
| CardForm.AutoRefresh | components/CheckoutForm.tsx:304-313 | The effect refreshes only for a card payment with a full bin and an identified method. It then makes one installments query for that bin, 47.00 and that method, and leaves the selection consistent whatever it was before. Otherwise nothing changes. |
| CardForm.BinChangeThenEffectConsistent | components/CheckoutForm.tsx:304-403 | When the effect's refresh settles after the handler's, a full-bin change whose method lookup names a method, or throws, ends with a consistent selection, however stale the handler's captured selection was. |
| CardForm.ShortBinResets | components/CheckoutForm.tsx:365-374 | A bin shorter than 6, or none, clears the method, the issuers and the installments (selection 1), marks nothing unavailable and asks nothing. |
| CardForm.FailedLookupClears | components/CheckoutForm.tsx:395-402 | A lookup that throws clears the method, the issuers and the installments, and marks them unavailable. |
| CardForm.FullBinLooksUp | components/CheckoutForm.tsx:375-394 | A full bin is looked up in order: the payment method, the issuers, then the installments for 47.00 and the identified method. |
| CardForm.FullBinStoresIdentification | components/CheckoutForm.tsx:376-388 | The identified method and the first listed issuer are stored. Without a listed issuer, none is selected. |
| CardForm.Mount | components/CheckoutForm.tsx:315-435 | A non-card method changes nothing. A missing key or SDK shows its message. With both present, the fields are ready and no error shows iff initialisation succeeded. Only readiness, the refs and the error change. |
| CardForm.Teardown | components/CheckoutForm.tsx:407-420 | The refs are dropped and the bin, method, issuers and installments return to their initial values. The error and the tokenizing flag are kept. |
| CardForm.TeardownRestoresInitial | components/CheckoutForm.tsx:407-420 | Teardown gives the initial card state, except for a pending error. It is idempotent and leaves a consistent selection. |
| CardForm.GuardFailure | components/CheckoutForm.tsx:440-464 | A guard fails iff any check fails. The message is the first failing check's, in the order SDK/key, holder name, 11-digit CPF, field readiness, payment method. |
| CardForm.SubmitCreditCard | components/CheckoutForm.tsx:437-535 | A failing guard shows its message and does nothing else. Past the guards, tokenizing always ends. The card is tokenized with the trimmed holder, `CPF` and the document's digits. A reply without a token id shows its message and is not submitted. A token is submitted with the stored card data. A thrown error is shown. Only the error and the tokenizing flag change. |
| CardForm.SubmitOnlyWithToken | components/CheckoutForm.tsx:440-493 | The card reaches `onSubmit` iff every guard passes, the fields exist and the SDK returned a token id. |
| CardForm.NoSubmitAfterTeardown | components/CheckoutForm.tsx:456-459 | After a teardown, a card submit tokenizes nothing. |
| PixPoller.CheckPixStatus | components/CheckoutForm.tsx:112-148 | Without a payment id nothing happens. Otherwise the status is fetched, the checking flag ends, and an answered status is shown. An approval sets the flag and schedules the pix thank-you page; it fires Purchase only if the flag was clear. Anything else leaves the flag alone. |
| PixPoller.CheckPixStatusCounts | components/CheckoutForm.tsx:120-141 | One poll fires Purchase iff it is the first approval seen with the pixel present. It schedules a redirect iff it was approved. |
| PixPoller.PurchaseAtMostOnce | components/CheckoutForm.tsx:120-141 | Over any run of polls, Purchase fires at most once, and never once tracked. A redirect is scheduled for every approved poll. |
| PixPoller.PollingActive | components/CheckoutForm.tsx:150-157 | The interval is installed iff there is a pix payment id, pix is the chosen method, and the shown status is not `approved`. |
| PixPoller.PollingActiveAfterPoll | components/CheckoutForm.tsx:127-157 | Under an installed interval, a poll leaves the install condition holding iff it did not see an approval. |
| PixPoller.PollingStartsAfterPixSubmit | components/CheckoutForm.tsx:150-157 | After a successful pix submit with a payment id, the polling interval is installed. |
| Conversion.FirstNonBlank | api/create-payment.js:94-98 | The chosen header is the first that is present and not blank. Every earlier one is missing or blank. |
| Conversion.FirstHop | api/create-payment.js:96 | The first hop holds no comma and has no white space at either end. |
| Conversion.ClientIp | api/create-payment.js:87-101 | The address is the trimmed first hop of the first non-blank header among `x-vercel-forwarded-for`, `x-forwarded-for` and `x-real-ip`. Otherwise it is the socket's address. |
| Conversion.FirstHopOfList | api/create-payment.js:96 | A forwarding list `client,proxies…` yields the client, trimmed. |
| Conversion.NormalizeIdempotent | api/create-payment.js:19 | Normalizing a normalized e-mail changes nothing. |
| Conversion.UserData | api/create-payment.js:28-44 | A key is present iff it is one of the five user-data keys and its value is defined, and it holds that value. |
| Conversion.UserDataKeys | api/create-payment.js:19-44 | `em` is the hash of the trimmed, lower-cased e-mail, and `ph`/`external_id` the hashes of the phone and document digits. `fbp`/`fbc` are the raw cookies. Each key is present iff its value is non-empty, and there are no other keys. |
| Conversion.UserDataIgnoresFormatting | api/create-payment.js:19-37 | Buyers with the same normalized e-mail and the same phone and document digits give the same user data. |
| Conversion.NoDigitsNoPhoneKey | api/create-payment.js:30-33 | A phone without a digit contributes no `ph` key. |
| Conversion.MetaPurchaseEvent | api/create-payment.js:3-76 | The event is skipped iff the pixel id or the access token is missing. Otherwise the request goes to the Graph API URL with both encoded, as a website Purchase with the time in seconds. Its event id is the truthy payment id. It carries the source URL as given, the truthy user agent and IP address, the user data, the value and currency, the test code when set, and one content per item (id, quantity 1, price). |
| Gateway.ThrownText | api/webhooks/mercadopago.js:228 | The text is the thrown value's message when truthy, else its string rendering. |
| Gateway.ConversionEffects | api/create-payment.js:14-81 | At most one conversion post is made, iff the pixel id and the access token are both set. It carries the event built for the arguments. |
| CreatePayment.ParseMethod | api/create-payment.js:123-126 | Only `pix` and `credit_card` are payment methods, and each maps back to its wire name. |
| CreatePayment.TotalCentsAppend | api/create-payment.js:135 | The total of two item lists is the sum of their totals. |
| CreatePayment.TotalIgnoresUnpriced | api/create-payment.js:135 | An item without a price adds nothing to the total. |
| CreatePayment.Check | api/create-payment.js:116-139 | The four 400 messages apply in order, each iff its condition holds: no e-mail or no items; an unknown method; a card without token or method id; a total not above zero. An accepted order is the body's own user, items, method, card and meta, and satisfies every check. |
| CreatePayment.NotificationUrl | api/create-payment.js:141-142 | The notification URL exists iff a site URL is set. It is that URL minus one trailing slash, followed by `/api/webhooks/mercadopago`. |
| CreatePayment.TrailingSlashIrrelevant | api/create-payment.js:142 | A site URL with or without a trailing slash gives the same notification URL. |
| CreatePayment.Description | api/create-payment.js:147 | The description is never empty and never longer than 240 characters. It is `Compra` iff no item has a title; otherwise the first 240 characters of the titles joined with ` + `. |
| CreatePayment.DescriptionOfOneTitle | api/create-payment.js:147 | A single titled item names the payment after it. |
| CreatePayment.InstallmentsOf | api/create-payment.js:175 | The installments sent are always truthy: the card's value when truthy, else 1. |
| CreatePayment.MetadataOf | api/create-payment.js:152-163 | The buyer's four fields are stored as sent. The five attribution fields are stored only when truthy. The items are stored and there is no amount. |
| CreatePayment.Payload | api/create-payment.js:145-185 | The amount is the positive total, with the description, payer e-mail, notification URL and metadata. A pix payload has method `pix` and no card fields. A card payload carries the token, installments, method id, issuer and CPF identification. |
| CreatePayment.CausePartEmpty | api/create-payment.js:205-208 | A cause renders as empty iff it has no code, description or detail. |
| CreatePayment.CauseParts | api/create-payment.js:204-209 | There is one rendered part per cause, in order. |
| CreatePayment.CauseTextEmpty | api/create-payment.js:202-212 | The cause text is empty iff the list is missing or no cause has any part. |
| CreatePayment.MpMessage | api/create-payment.js:201-219 | The error is never empty. It is the gateway's message, else its error, else its status, else `Mercado Pago: ` plus the causes, else `Mercado Pago error`. |
| CreatePayment.FallbackMessageOnlyWhenSilent | api/create-payment.js:214-219 | The fixed fallback appears iff the gateway gave nothing to show, or its first truthy field is that very text. |
| CreatePayment.CardConversionEvent | api/create-payment.js:53-66 | The event posted for an approved card lists the order's items, its value is the sum of their prices, and its URL, user agent and IP address are the request's. |
| CreatePayment.ContentsTotalIsTotalCents | api/create-payment.js:61-66 | The contents price each item as the order total does, so the two sums agree. |
| CreatePayment.CardPurchaseArgs | api/create-payment.js:227-239 | The conversion for a card carries the buyer, items, meta, payment id, total and BRL. Its source URL is the meta URL else the site URL, its user agent is the meta one else the request header, and its address is the client IP. |
| CreatePayment.SuccessBody | api/create-payment.js:245-254 | The success body carries the gateway's id, status and detail, the pix charge fields when there are any, and echoes the order. |
| CreatePayment.Settle | api/create-payment.js:187-257 | A failed exchange answers 500 `Payment creation failed`. A refusal mirrors the gateway's status with its message and details. A success answers 200, and sends the conversion only for an approved card. |
| CreatePayment.Handle | api/create-payment.js:103-258 | A non-POST answers 405 with `Allow: POST`, a missing token 500, and a failed check 400 with its message; none of these calls anything. Otherwise the payment is created once with the bearer token, the idempotency key and the payload, then settled. |
| CreatePayment.ChargeOnlyForAcceptedOrders | api/create-payment.js:103-258 | A call is made iff the request is a POST with the token and an accepted body. The charge comes first and only conversion posts follow. The answer is a success iff the charge was not refused, and a success is 200. |
| CreatePayment.ConversionOnlyForApprovedCards | api/create-payment.js:227-243 | At most one conversion is sent, iff an accepted card payment came back approved and the credentials are set. A pix payment never sends one. |
| CreatePayment.ResponseIgnoresConversion | api/create-payment.js:228-242 | The conversion settings never change the answer. |
| Webhook.PaymentIdOf | api/webhooks/mercadopago.js:154-156 | The first non-null of `data.id`, `data.payment_id` and `query.id` decides, and is kept only when non-empty. |
| Webhook.EmptyIdShadowsFallbacks | api/webhooks/mercadopago.js:154-159 | An empty `data.id` gets the notification ignored, even when a later field holds an id. |
| Webhook.CustomerOf | api/webhooks/mercadopago.js:178-183 | The customer is the four buyer fields of the metadata, undefined without metadata. |
| Webhook.MetaOf | api/webhooks/mercadopago.js:185-191 | The attribution data is the five `meta_*` fields of the metadata. |
| Webhook.AmountOf | api/webhooks/mercadopago.js:196 | The amount is the payment's own, else the metadata's, else NaN. |
| Webhook.CentsOf | api/webhooks/mercadopago.js:203 | The value is rounded to the nearest cent. |
| Webhook.CentsOfCents | api/webhooks/mercadopago.js:203 | An amount made of whole cents converts back to the same cents. |
| Webhook.PaymentPurchaseArgs | api/webhooks/mercadopago.js:199-209 | The conversion carries the payment id, the stored customer and meta, the stored items, the amount in cents and BRL. Its source URL is the site URL, its user agent is the stored one, and its address is the client IP. |
| Webhook.ApprovedConversion | api/webhooks/mercadopago.js:193-213 | At most one conversion post is made, iff the amount is finite and positive and the credentials are set. It carries the amount and the stored buyer's user data. |
| Webhook.Setting | api/webhooks/mercadopago.js:221-222 | A setting is its configured value when truthy, else the default. |
| Webhook.MemboxPayloadOf | api/webhooks/mercadopago.js:111-124 | The payload is an `insert` with the four customer fields, the product name, a single order bump and the credential. |
| Webhook.Provision | api/webhooks/mercadopago.js:103-138 | The answer is always 200. A missing URL or credential is reported and nothing is posted. Otherwise one post is made, and a throw, a non-ok reply (`Membox webhook failed: {status} {text}`) or `sent` is reported. |
| Webhook.Approved | api/webhooks/mercadopago.js:193-226 | The conversion comes first. An incomplete customer is skipped; a complete one is provisioned. |
| Webhook.Handle | api/webhooks/mercadopago.js:140-230 | A non-POST answers 405, a missing token 500, and a missing id 200 `ignored`; none of these calls anything. Otherwise the payment is fetched first. A throw, a gateway error and a status other than approved each answer 200, with no other call. An approved payment goes on. |
| Webhook.AlwaysAcknowledged | api/webhooks/mercadopago.js:156-229 | For a POST with the token, every outcome answers 200, failures included. |
| Webhook.ProvisionOnlyWhenApprovedAndComplete | api/webhooks/mercadopago.js:173-226 | At most one member-area post is made per notification. It is made iff the payment is approved, the customer complete and the settings present. |
| Webhook.ApprovedPostsOnce | api/webhooks/mercadopago.js:216-224 | After approval, one post is made iff the customer is complete and the settings are there. |
| Webhook.ConversionPostsNoMembox | api/webhooks/mercadopago.js:193-213 | The conversion step makes no member-area post. |
| Webhook.ProvisionPostsOnce | api/webhooks/mercadopago.js:103-130 | Provisioning posts once iff the URL and the credential are set. |
| Webhook.NothingButLookupUnlessApproved | api/webhooks/mercadopago.js:161-176 | A payment that is not approved, or cannot be fetched, causes no call beyond the lookup. |
| Webhook.SkippedIffIncomplete | api/webhooks/mercadopago.js:216-219 | For an approved payment, provisioning is skipped iff one of the four customer fields is missing or empty. |
| Webhook.ResponseIgnoresConversion | api/webhooks/mercadopago.js:193-213 | The conversion settings never change the answer. |
| Scenarios.ClientJson | api/create-payment.js:245-254 | The browser sees `success` iff the answer succeeded. It sees the error of a failure, and the id, status and pix fields of a success. |
| Scenarios.ClientReply | services/mockService.ts:67 | The reply is ok iff the status is 2xx, and carries the status and the JSON. |
| Scenarios.ValidHasEmail | App.tsx:71-75 | A valid form has a non-empty e-mail. |
| Scenarios.ValidFormAccepted | api/create-payment.js:116-139 | What the browser sends for a valid form passes every check of the endpoint, provided a card payment has complete card data. It is one main product at 4700 cents, named after it. |
| Scenarios.CardApprovalEndToEnd | App.tsx:147-167 | For an approved card: the endpoint answers 200 and sends one conversion iff configured. The page fires Purchase with the gateway's id and schedules the card thank-you page. |
| Scenarios.PixChargeEndToEnd | App.tsx:138-145 | For a created pix charge: the endpoint sends no conversion, the page stores the charge's id and QR data, and polling starts. |
| Scenarios.ServerPixCharge | api/create-payment.js:245-254 | The endpoint answers a created pix charge with 200 and its success body, and sends no conversion. |
| Scenarios.GatewayRefusalReachesBanner | App.tsx:179-181 | A gateway refusal mirrors its status, and its message becomes the page's banner. |
| Scenarios.ClientSeesRefusal | services/mockService.ts:67-76 | A non-2xx answer with an error text makes the request throw that text. |
| Scenarios.ServerRefusal | api/create-payment.js:201-222 | A refused charge for a valid form answers the gateway's status, message and details. |
| Scenarios.MetadataRoundTrip | api/webhooks/mercadopago.js:178-191 | The stored metadata gives the webhook back the buyer exactly as sent, and the same hashed identity. |
| Scenarios.ApprovedOrderProvisioned | api/webhooks/mercadopago.js:216-226 | An approved order is provisioned once with the name and e-mail as typed and the phone and document digits, when all four are non-empty. |
| Scenarios.PhoneWithoutDigitsSkipsProvisioning | api/webhooks/mercadopago.js:216-219 | A valid form whose phone has no digit is accepted for charging, yet its approval skips provisioning with no post. |
| Scenarios.PhoneOfDashesIsValid | App.tsx:77-80 | Ten dashes pass the phone rule, so such forms exist. |
| Text.Trim | App.tsx:66 | The result is empty iff the string is blank. Otherwise it neither starts nor ends with white space. |
| Text.TrimIsInfix | App.tsx:66 | Trimming keeps an infix and cuts only white space on either side. |
| Text.DigitsOnly | App.tsx:83 | The result holds only digits and is no longer than the input. It has the same length iff the input was all digits. |
| Text.Split | services/mockService.ts:19 | There is at least one piece, and no piece holds the separator. |
| Text.JoinSplit | services/mockService.ts:19 | Joining the pieces of a split with the separator gives back the string. |
| Text.SplitJoin | services/mockService.ts:19 | Splitting a join of separator-free pieces gives back the pieces. |
| Text.Compact | api/create-payment.js:147 | The filter keeps exactly the non-empty strings. |
| Text.Utf16Length | App.tsx:66 | The length in UTF-16 code units lies between the number of characters and twice it, and equals it iff no character is above U+FFFF. |
| Text.Take | api/create-payment.js:147 | The slice is a prefix of at most `n` characters: the whole string when it is short enough, otherwise exactly `n` characters. |
| Text.DropTrailingSlash | api/create-payment.js:142 | At most one trailing slash is removed, and one is removed iff there is one. |
| Text.ToLowerAscii | api/create-payment.js:19 | The length is unchanged, no upper-case ASCII letter remains, and every other character is unchanged. |
| Text.NatToString | services/mockService.ts:35 | The result is decimal digits with no leading zero (except for 0 itself). |
| Text.ParseNatToString | services/mockService.ts:35 | The decimal rendering reads back as the same number. |

## Left out

- Rendering, styling, the order summary and the input component are UI.
- The postal-code autofill (components/CheckoutForm.tsx:75-99) is external I/O.
- api/payment-status.js is not part of this model. The poller only sees its `status` field, as `PixPoller.StatusReply`.
- The Gemini proxy, the local server stub, server.ts, scripts/dev.mjs, the type declarations and the constants file are not part of this model. The product constants are restated in `Wire`.
- `fetch`, the Mercado Pago browser SDK, the pixel, the Graph API and Membox are replies given as inputs and calls recorded in a trace.
- SHA-256 and the URI codecs are uninterpreted functions. The clock and the idempotency key are parameters.
- Timers, React effect lifecycles and state batching are left out. A redirect is a trace entry, a poll is one call of `PixPoller.CheckPixStatus`, and the component's successive writes are a list of states. Concurrent deliveries and races are out of scope.
- The debug stringification of errors (components/CheckoutForm.tsx:239-298, 495-531) is left out. The rendered text is an input (`TokenThrew.rendered`), and the installment debug text is not modelled.
- The outcome of the conversion request (`sendMetaPurchaseEvent`'s reply or exception) is not modelled. Every call site ignores it. `ResponseIgnoresConversion` proves that the answers do not depend on it.
- Provisioning has no dedup guard in the code, so none is modelled. Each notification is handled on its own.
- CreatePayment.Check: prices are integer cents, so the non-finite total branch (a price string that is not a number) cannot arise in the model.
- CreatePayment.Payload: `Number(total.toFixed(2))` is the exact total in cents. Binary floating point and its rounding are not modelled.
- Webhook.CentsOf: it rounds the exact rational value to the nearest cent. `toFixed(2)` works on the binary double, so some halfway cases may round the other way.
- Webhook.PaymentIdOf: ids are strings. The gateway may send a numeric id, and `String(paymentId)` of a number is not modelled.
- Text.ToLowerAscii: only ASCII letters are lower-cased. JavaScript's `toLowerCase` also maps non-ASCII letters.
- Text.Take: it counts Dafny characters (code points). JavaScript's `slice` counts UTF-16 code units, so a title with characters outside the Basic Multilingual Plane can be cut differently.
- CheckoutService.ProcessCheckout: a reply body that parses as JSON but is not an object (`null`, a number) is not modelled.
- CardForm.RefreshInstallments: the loading flag is modelled only at the end of the call, not while the SDK call is in flight.
- CardForm.OnBinChange: the selection it reads is a parameter, the one captured when the card fields were mounted. Which of its refresh and the effect's refresh settles last is a race the model does not decide; `BinChangeThenEffectConsistent` covers the order in which the effect settles last.
- CardForm.AutoRefresh: one run of the effect is modelled. Which state changes trigger a run (method, bin, payment method, issuer) is left to the caller.
- PixPoller.PollingActive: the condition is evaluated as a predicate. Clearing the interval when the payment id or the method changes, or on unmount, is not modelled.
