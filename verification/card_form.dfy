/** The card side of the checkout form (components/CheckoutForm.tsx): the
    installment resolver, the reset on a bin change, the card-field mount and
    teardown, and the guard ladder before tokenization. The payment SDK's
    answers are inputs; the calls made on it are effects. */
module CardForm {
  import opened Base
  import opened Text
  import opened Wire
  import opened Tracking

  /** The public key from the build environment and whether the SDK script
      defined its constructor. */
  datatype SdkEnv = SdkEnv(publicKey: Option<string>, sdkLoaded: bool)

  /** `publicKey?.trim()` is truthy and the constructor exists. */
  predicate SdkAvailable(env: SdkEnv) {
    env.publicKey.Some? && Trim(env.publicKey.value) != [] && env.sdkLoaded
  }

  /** An issuer as the SDK lists it, and as the form stores it. */
  datatype RawIssuer = RawIssuer(id: Option<string>, name: Option<string>)
  datatype Issuer = Issuer(id: string, name: Option<string>)

  /** One `payer_costs` entry, with its numeric fields already read by `Number`. */
  datatype PayerCost = PayerCost(installments: JsNum, installmentAmount: JsNum, totalAmount: JsNum, recommendedMessage: Option<string>)

  /** One choice in the installments selector. */
  datatype InstallmentOption = InstallmentOption(installments: real, installmentAmount: JsNum, totalAmount: JsNum, message: Option<string>)

  /** The card-related component state and the field refs. */
  datatype CardState = CardState(
    mpReady: bool,
    hasFields: bool,
    cardError: Option<string>,
    bin: string,
    paymentMethodId: string,
    issuerId: string,
    issuers: Option<seq<Issuer>>,
    tokenizing: bool,
    options: seq<InstallmentOption>,
    installments: real,
    loading: bool,
    unavailable: bool)

  const InitialCard: CardState := CardState(false, false, None, "", "", "", None, false, [], 1.0, false, false)

  /** What `getInstallments` did: it threw, or it answered with the first
      result's `payer_costs` (`None` when that is not an array). */
  datatype InstallmentsReply = InstallmentsThrew | InstallmentsAnswered(payerCosts: Option<seq<PayerCost>>)

  /** A payer cost survives both filters: `Number(installments) >= 1`, then
      finite and at most 12. */
  predicate Eligible(pc: PayerCost) {
    pc.installments.AtLeast(1.0) && pc.installments.IsFinite() && pc.installments.value <= 12.0
  }

  function OptionOf(pc: PayerCost): (o: InstallmentOption)
    requires Eligible(pc)
    ensures 1.0 <= o.installments <= 12.0
  {
    InstallmentOption(pc.installments.value, pc.installmentAmount, pc.totalAmount, Truthy(pc.recommendedMessage))
  }

  /** `payerCosts.filter(…).map(…).filter(…)`: the eligible payer costs, in
      their original order, as selector options. */
  function MapPayerCosts(pcs: seq<PayerCost>): (r: seq<InstallmentOption>)
    ensures |r| <= |pcs|
    ensures forall i :: 0 <= i < |r| ==> 1.0 <= r[i].installments <= 12.0
  {
    if pcs == [] then []
    else (if Eligible(pcs[0]) then [OptionOf(pcs[0])] else []) + MapPayerCosts(pcs[1..])
  }

  /** The mapping works entry by entry, so it keeps the original order. */
  lemma {:induction false} MapPayerCostsAppend(a: seq<PayerCost>, b: seq<PayerCost>)
    ensures MapPayerCosts(a + b) == MapPayerCosts(a) + MapPayerCosts(b)
  {
    if a == [] {
      assert a + b == b;
    } else {
      assert (a + b)[1..] == a[1..] + b;
      MapPayerCostsAppend(a[1..], b);
    }
  }

  /** No option is invented: every option is the image of an eligible payer
      cost, and every eligible payer cost yields an option. */
  lemma {:induction false} MapPayerCostsMembers(pcs: seq<PayerCost>)
    ensures forall o :: o in MapPayerCosts(pcs) ==> exists pc :: pc in pcs && Eligible(pc) && o == OptionOf(pc)
    ensures forall pc :: pc in pcs && Eligible(pc) ==> OptionOf(pc) in MapPayerCosts(pcs)
  {
    if pcs != [] {
      MapPayerCostsMembers(pcs[1..]);
      assert pcs == [pcs[0]] + pcs[1..];
      forall pc | pc in pcs[1..] ensures pc in pcs {
      }
    }
  }

  /** The options are empty exactly when no payer cost is eligible. */
  lemma {:induction false} MapPayerCostsEmpty(pcs: seq<PayerCost>)
    ensures MapPayerCosts(pcs) == [] <==> forall i :: 0 <= i < |pcs| ==> !Eligible(pcs[i])
  {
    if pcs != [] {
      MapPayerCostsEmpty(pcs[1..]);
      assert forall i :: 1 <= i < |pcs| ==> pcs[i] == pcs[1..][i - 1];
    }
  }

  /** Some option offers `n` installments. */
  predicate Offers(options: seq<InstallmentOption>, n: real) {
    exists i :: 0 <= i < |options| && options[i].installments == n
  }

  /** `if (!mapped.some(m => m.installments === cardInstallments)) setCardInstallments(mapped?.[0]?.installments || 1)`.
      `captured` is the `cardInstallments` of the render whose closure runs
      the refresh, and `current` the selection in the state when it settles:
      an offered `captured` leaves `current` as it is. */
  function Reselect(mapped: seq<InstallmentOption>, captured: real, current: real): (n: real)
    requires forall i :: 0 <= i < |mapped| ==> mapped[i].installments >= 1.0
    ensures Offers(mapped, captured) ==> n == current
    ensures !Offers(mapped, captured) && mapped != [] ==> n == mapped[0].installments
    ensures mapped == [] ==> n == 1.0
  {
    if Offers(mapped, captured) then current
    else if mapped != [] && mapped[0].installments != 0.0 then mapped[0].installments
    else 1.0
  }

  /** The selection is one the selector offers, or 1 when it offers none. */
  predicate SelectionConsistent(s: CardState) {
    if s.options == [] then s.installments == 1.0 else Offers(s.options, s.installments)
  }

  /** `refreshInstallments({ bin, amount, paymentMethodId })`, run by the
      closure of a render whose `cardInstallments` was `captured`. */
  function RefreshInstallments(
    s: CardState, captured: real, env: SdkEnv, bin: Option<string>, amount: JsNum, paymentMethodId: Option<string>,
    reply: InstallmentsReply): (r: (CardState, seq<Effect>))
    // only the installment fields change
    ensures r.0.(options := s.options, installments := s.installments, unavailable := s.unavailable, loading := s.loading) == s
    // missing key or SDK: unavailable, and the SDK is not asked
    ensures !SdkAvailable(env) ==> r == (s.(unavailable := true), [])
    // incomplete bin: not (yet) unavailable, and the SDK is not asked
    ensures SdkAvailable(env) && (!Present(bin) || |bin.value| < 6) ==> r == (s.(unavailable := false), [])
    // an amount that is not a positive finite number: unavailable, not asked
    ensures SdkAvailable(env) && Present(bin) && |bin.value| >= 6 && !(amount.IsFinite() && amount.value > 0.0) ==>
              r == (s.(unavailable := true), [])
    ensures SdkAvailable(env) && Present(bin) && |bin.value| >= 6 && amount.IsFinite() && amount.value > 0.0 ==>
              && r.1 == [QueryInstallments(bin.value, amount.value, paymentMethodId)]
              && !r.0.loading
              && (r.0.unavailable <==> r.0.options == [])
              && (captured == s.installments ==> SelectionConsistent(r.0))
    // a usable answer: the eligible options, and the selection kept when offered
    ensures SdkAvailable(env) && Present(bin) && |bin.value| >= 6 && amount.IsFinite() && amount.value > 0.0
            && reply.InstallmentsAnswered? && reply.payerCosts.Some? && reply.payerCosts.value != [] ==>
              && r.0.options == MapPayerCosts(reply.payerCosts.value)
              && r.0.installments == Reselect(r.0.options, captured, s.installments)
    // no usable answer or a failure: nothing to choose from
    ensures SdkAvailable(env) && Present(bin) && |bin.value| >= 6 && amount.IsFinite() && amount.value > 0.0
            && !(reply.InstallmentsAnswered? && reply.payerCosts.Some? && reply.payerCosts.value != []) ==>
              r.0.options == [] && r.0.installments == 1.0 && r.0.unavailable
  {
    if !SdkAvailable(env) then (s.(unavailable := true), [])
    else if !Present(bin) || |bin.value| < 6 then (s.(unavailable := false), [])
    else if !(amount.IsFinite() && amount.value > 0.0) then (s.(unavailable := true), [])
    else
      var query := [QueryInstallments(bin.value, amount.value, paymentMethodId)];
      match reply
      case InstallmentsAnswered(Some(pcs)) =>
        if pcs != [] then
          var mapped := MapPayerCosts(pcs);
          var n := Reselect(mapped, captured, s.installments);
          (s.(options := mapped, unavailable := mapped == [], installments := n, loading := false), query)
        else
          (s.(options := [], installments := 1.0, unavailable := true, loading := false), query)
      case _ =>
        (s.(options := [], installments := 1.0, unavailable := true, loading := false), query)
  }

  /** Whatever the SDK answers, a refresh by a closure that sees the current
      selection keeps the selection consistent with the options. */
  lemma RefreshKeepsSelectionConsistent(
    s: CardState, env: SdkEnv, bin: Option<string>, amount: JsNum, paymentMethodId: Option<string>,
    reply: InstallmentsReply)
    requires SelectionConsistent(s)
    ensures SelectionConsistent(RefreshInstallments(s, s.installments, env, bin, amount, paymentMethodId, reply).0)
  {
  }

  function PayerCostOf(n: real): PayerCost {
    PayerCost(Finite(n), Finite(47.0), Finite(47.0), None)
  }

  function OptionOfCount(n: real): InstallmentOption {
    InstallmentOption(n, Finite(47.0), Finite(47.0), None)
  }

  /** A closure that captured a stale selection can leave the selection
      unoffered: the options were 1 to 3 with 3 selected, the closure saw 1,
      and the new answer offers 1 and 2; 1 is offered, so 3 stays. */
  lemma StaleSelectionSurvives(env: SdkEnv)
    requires SdkAvailable(env)
    ensures var s := InitialCard.(options := [OptionOfCount(1.0), OptionOfCount(2.0), OptionOfCount(3.0)], installments := 3.0);
            var r := RefreshInstallments(s, 1.0, env, Some("411111"), Finite(47.0), Some("visa"),
                                         InstallmentsAnswered(Some([PayerCostOf(1.0), PayerCostOf(2.0)])));
            && SelectionConsistent(s)
            && r.0.options == [OptionOfCount(1.0), OptionOfCount(2.0)]
            && r.0.installments == 3.0
            && !SelectionConsistent(r.0)
  {
    var s := InitialCard.(options := [OptionOfCount(1.0), OptionOfCount(2.0), OptionOfCount(3.0)], installments := 3.0);
    assert s.options[2].installments == 3.0;
    var pcs := [PayerCostOf(1.0), PayerCostOf(2.0)];
    assert MapPayerCosts(pcs[1..][1..]) == [];
    assert MapPayerCosts(pcs) == [OptionOfCount(1.0), OptionOfCount(2.0)];
    assert Offers(MapPayerCosts(pcs), 1.0) by {
      assert MapPayerCosts(pcs)[0].installments == 1.0;
    }
  }

  /** What `getPaymentMethods` did: threw, or answered with the first result's id. */
  datatype PaymentMethodsReply = PaymentMethodsThrew | PaymentMethodsAnswered(firstId: Option<string>)

  /** What `getIssuers` did: threw, or answered with the issuer list (`None`
      when it is not an array). */
  datatype IssuersReply = IssuersThrew | IssuersAnswered(issuers: Option<seq<RawIssuer>>)

  /** `String(i?.id)` and the optional name. */
  function IssuerOf(i: RawIssuer): Issuer {
    Issuer(if i.id.Some? then i.id.value else "undefined", Truthy(i.name))
  }

  /** The state a too-short bin leaves behind: card identification and
      installments cleared, and nothing marked unavailable. */
  function ResetForBin(s: CardState, bin: string): CardState {
    s.(bin := bin, paymentMethodId := "", issuerId := "", issuers := None,
       options := [], installments := 1.0, unavailable := false)
  }

  /** The issuer list an answer leaves: all listed issuers with the first
      one selected, or none. */
  function ApplyIssuers(s: CardState, list: Option<seq<RawIssuer>>): (r: CardState)
    ensures list.Some? && list.value != [] ==>
              && r.issuers.Some? && |r.issuers.value| == |list.value|
              && (forall k :: 0 <= k < |list.value| ==> r.issuers.value[k] == IssuerOf(list.value[k]))
              && r.issuerId == OrEmpty(Truthy(list.value[0].id))
    ensures !(list.Some? && list.value != []) ==> r.issuerId == "" && r.issuers == None
    ensures r.(issuers := s.issuers, issuerId := s.issuerId) == s
  {
    if list.Some? && list.value != [] then
      var raw := list.value;
      s.(issuers := Some(seq(|raw|, k requires 0 <= k < |raw| => IssuerOf(raw[k]))),
         issuerId := OrEmpty(Truthy(raw[0].id)))
    else s.(issuerId := "", issuers := None)
  }

  /** The clean-up of a failed lookup. */
  function LookupFailed(s: CardState): CardState {
    s.(paymentMethodId := "", issuerId := "", issuers := None, options := [], installments := 1.0, unavailable := true)
  }

  /** `onBinChange(e)` for the card-number field of a mounted SDK; the three
      SDK answers are inputs. The handler is created by the mount effect, so
      its refresh reads the `cardInstallments` of that render, `captured`. */
  function OnBinChange(
    s: CardState, captured: real, env: SdkEnv, bin: Option<string>, pm: PaymentMethodsReply, issuers: IssuersReply,
    installments: InstallmentsReply): (r: (CardState, seq<Effect>))
    ensures r.0.bin == OrEmpty(bin)
    ensures captured == s.installments && SelectionConsistent(s) ==> SelectionConsistent(r.0)
    ensures forall i :: 0 <= i < |r.1| ==> r.1[i].QueryPaymentMethods? || r.1[i].QueryIssuers? || r.1[i].QueryInstallments?
  {
    if !Present(bin) || |bin.value| < 6 then (ResetForBin(s, OrEmpty(bin)), [])
    else
      var b := bin.value;
      var s1 := s.(bin := b);
      match pm
      case PaymentMethodsThrew => (LookupFailed(s1), [QueryPaymentMethods(b)])
      case PaymentMethodsAnswered(pmId) =>
        var s2 := s1.(paymentMethodId := OrEmpty(Truthy(pmId)));
        var asked := [QueryPaymentMethods(b), QueryIssuers(pmId, b)];
        match issuers
        case IssuersThrew => (LookupFailed(s2), asked)
        case IssuersAnswered(list) =>
          var refreshed := RefreshInstallments(ApplyIssuers(s2, list), captured, env, Some(b), Finite(47.0), pmId, installments);
          (refreshed.0, asked + refreshed.1)
  }

  /** A bin shorter than 6 (or none) resets the card identification and the
      installments, marks nothing unavailable and asks the SDK nothing. */
  lemma ShortBinResets(
    s: CardState, captured: real, env: SdkEnv, bin: Option<string>, pm: PaymentMethodsReply, issuers: IssuersReply,
    installments: InstallmentsReply)
    requires !Present(bin) || |bin.value| < 6
    ensures var r := OnBinChange(s, captured, env, bin, pm, issuers, installments);
            && r.0 == s.(bin := OrEmpty(bin), paymentMethodId := "", issuerId := "", issuers := None,
                         options := [], installments := 1.0, unavailable := false)
            && r.1 == []
  {
  }

  /** A lookup that throws clears the card identification and marks the
      installments unavailable. */
  lemma FailedLookupClears(
    s: CardState, captured: real, env: SdkEnv, bin: Option<string>, pm: PaymentMethodsReply, issuers: IssuersReply,
    installments: InstallmentsReply)
    requires Present(bin) && |bin.value| >= 6
    requires pm.PaymentMethodsThrew? || issuers.IssuersThrew?
    ensures var r := OnBinChange(s, captured, env, bin, pm, issuers, installments);
            && r.0.paymentMethodId == "" && r.0.issuerId == "" && r.0.issuers == None
            && r.0.options == [] && r.0.installments == 1.0 && r.0.unavailable
            && r.1[0] == QueryPaymentMethods(bin.value)
  {
  }

  /** A full bin is looked up in order (payment method, issuers, then
      installments for the identified method) and the identified method and
      first issuer are stored. */
  lemma FullBinLooksUp(
    s: CardState, captured: real, env: SdkEnv, bin: Option<string>, pmId: Option<string>, list: Option<seq<RawIssuer>>,
    installments: InstallmentsReply)
    requires Present(bin) && |bin.value| >= 6
    ensures var r := OnBinChange(s, captured, env, bin, PaymentMethodsAnswered(pmId), IssuersAnswered(list), installments);
            var s2 := s.(bin := bin.value, paymentMethodId := OrEmpty(Truthy(pmId)));
            var refreshed := RefreshInstallments(ApplyIssuers(s2, list), captured, env, Some(bin.value), Finite(47.0), pmId, installments);
            && r.1 == [QueryPaymentMethods(bin.value), QueryIssuers(pmId, bin.value)] + refreshed.1
            && r.0 == refreshed.0
            && (SdkAvailable(env) ==> refreshed.1 == [QueryInstallments(bin.value, 47.0, pmId)])
  {
  }

  /** The identified payment method and the first listed issuer are
      stored; without a listed issuer none is selected. */
  lemma FullBinStoresIdentification(
    s: CardState, captured: real, env: SdkEnv, bin: Option<string>, pmId: Option<string>, list: Option<seq<RawIssuer>>,
    installments: InstallmentsReply)
    requires Present(bin) && |bin.value| >= 6
    ensures var r := OnBinChange(s, captured, env, bin, PaymentMethodsAnswered(pmId), IssuersAnswered(list), installments);
            && r.0.paymentMethodId == OrEmpty(Truthy(pmId))
            && (list.Some? && list.value != [] ==> r.0.issuerId == OrEmpty(Truthy(list.value[0].id)))
            && (!(list.Some? && list.value != []) ==> r.0.issuerId == "" && r.0.issuers == None)
  {
    FullBinLooksUp(s, captured, env, bin, pmId, list, installments);
  }

  /** `refreshInstallments` runs on its own only for card payments with a
      full bin and an identified payment method. */
  predicate ShouldAutoRefresh(paymentMethod: PaymentMethod, s: CardState) {
    paymentMethod == CreditCard && s.bin != [] && |s.bin| >= 6 && s.paymentMethodId != []
  }

  /** One run of the effect on `[paymentMethod, cardBin, cardPaymentMethodId,
      cardIssuerId, totalAmount]`: a refresh by the current render's closure,
      for the stored bin and payment method and the 47.00 total. */
  function AutoRefresh(paymentMethod: PaymentMethod, s: CardState, env: SdkEnv, reply: InstallmentsReply): (r: (CardState, seq<Effect>))
    ensures !ShouldAutoRefresh(paymentMethod, s) ==> r == (s, [])
    ensures ShouldAutoRefresh(paymentMethod, s) && !SdkAvailable(env) ==> r == (s.(unavailable := true), [])
    ensures ShouldAutoRefresh(paymentMethod, s) && SdkAvailable(env) ==>
              && r.1 == [QueryInstallments(s.bin, 47.0, Some(s.paymentMethodId))]
              && SelectionConsistent(r.0)
              && r.0.(options := s.options, installments := s.installments, unavailable := s.unavailable, loading := s.loading) == s
  {
    if ShouldAutoRefresh(paymentMethod, s) then
      RefreshInstallments(s, s.installments, env, Some(s.bin), Finite(47.0), Some(s.paymentMethodId), reply)
    else (s, [])
  }

  /** When the effect's refresh settles after the handler's, a bin change
      ends with a consistent selection, however stale the handler's closure
      was: either the lookup cleared the identification, or the identified
      method triggers the effect, which reads the current selection. */
  lemma {:induction false} BinChangeThenEffectConsistent(
    s: CardState, captured: real, env: SdkEnv, bin: Option<string>, pm: PaymentMethodsReply, issuers: IssuersReply,
    installments: InstallmentsReply, again: InstallmentsReply)
    requires SdkAvailable(env) && Present(bin) && |bin.value| >= 6
    requires pm.PaymentMethodsAnswered? ==> Present(pm.firstId)
    ensures var r := OnBinChange(s, captured, env, bin, pm, issuers, installments);
            SelectionConsistent(AutoRefresh(CreditCard, r.0, env, again).0)
  {
    var r := OnBinChange(s, captured, env, bin, pm, issuers, installments);
    if pm.PaymentMethodsThrew? || issuers.IssuersThrew? {
      FailedLookupClears(s, captured, env, bin, pm, issuers, installments);
      assert !ShouldAutoRefresh(CreditCard, r.0);
    } else {
      FullBinStoresIdentification(s, captured, env, bin, pm.firstId, issuers.issuers, installments);
      assert ShouldAutoRefresh(CreditCard, r.0);
    }
  }

  /** How creating the SDK instance and the card fields went. */
  datatype InitOutcome =
    | Initialized
    | ConstructorThrew    // `new MercadoPago(…)` threw; no ref was set
    | FieldsThrew         // creating or mounting the fields threw after the refs were set

  const KeyMissingMessage: string := "Chave pública do Mercado Pago não configurada."
  const SdkMissingMessage: string := "SDK do Mercado Pago não carregou. Recarregue a página."
  const InitFailedMessage: string := "Erro ao inicializar pagamento com cartão. Tente recarregar a página."

  /** The card-method effect when the payment method changes. */
  function Mount(s: CardState, env: SdkEnv, paymentMethod: PaymentMethod, init: InitOutcome): (r: CardState)
    ensures paymentMethod != CreditCard ==> r == s
    ensures paymentMethod == CreditCard && !(env.publicKey.Some? && Trim(env.publicKey.value) != []) ==>
              r == s.(cardError := Some(KeyMissingMessage))
    ensures paymentMethod == CreditCard && env.publicKey.Some? && Trim(env.publicKey.value) != [] && !env.sdkLoaded ==>
              r == s.(cardError := Some(SdkMissingMessage))
    ensures paymentMethod == CreditCard && SdkAvailable(env) ==>
              && (r.mpReady <==> init.Initialized?)
              && (r.cardError.None? <==> init.Initialized?)
              && (init.Initialized? ==> r.hasFields)
    ensures r.(mpReady := s.mpReady, hasFields := s.hasFields, cardError := s.cardError) == s
  {
    if paymentMethod != CreditCard then s
    else if !(env.publicKey.Some? && Trim(env.publicKey.value) != []) then s.(cardError := Some(KeyMissingMessage))
    else if !env.sdkLoaded then s.(cardError := Some(SdkMissingMessage))
    else
      match init
      case Initialized => s.(cardError := None, hasFields := true, mpReady := true)
      case ConstructorThrew => s.(cardError := Some(InitFailedMessage), mpReady := false)
      case FieldsThrew => s.(cardError := Some(InitFailedMessage), hasFields := true, mpReady := false)
  }

  /** The cleanup of a successful mount: refs dropped and every card field
      back to its initial value (the error and the tokenizing flag stay). */
  function Teardown(s: CardState): (r: CardState)
    ensures !r.mpReady && !r.hasFields && !r.loading && !r.unavailable
    ensures r.bin == "" && r.paymentMethodId == "" && r.issuerId == "" && r.issuers == None
    ensures r.options == [] && r.installments == 1.0
    ensures r.cardError == s.cardError && r.tokenizing == s.tokenizing
  {
    s.(mpReady := false, hasFields := false, bin := "", paymentMethodId := "", issuerId := "", issuers := None,
       options := [], installments := 1.0, unavailable := false, loading := false)
  }

  /** Teardown returns the card state to its initial value, whatever
      happened before, except for a pending error. */
  lemma TeardownRestoresInitial(s: CardState)
    requires !s.tokenizing
    ensures Teardown(s) == InitialCard.(cardError := s.cardError)
    ensures Teardown(Teardown(s)) == Teardown(s)
    ensures SelectionConsistent(Teardown(s))
  {
  }

  /** What `createCardToken` did: threw (with the rendered details), or
      answered with a response whose `id` may be missing. */
  datatype TokenReply = TokenThrew(rendered: string) | TokenAnswered(id: Option<string>)

  const CardUnavailableMessage: string := "Cartão indisponível no momento."
  const HolderMissingMessage: string := "Informe o nome do titular do cartão."
  const CpfRequiredMessage: string := "Para cartão, informe um CPF válido."
  const FieldsLoadingMessage: string := "Carregando campos do cartão..."
  const CardUnidentifiedMessage: string := "Não foi possível identificar o cartão."
  const TokenMissingMessage: string := "Não foi possível tokenizar o cartão."

  /** The first guard of the ladder that fails, if any, in the order
      SDK/key, holder name, CPF, field readiness, payment method. */
  function GuardFailure(s: CardState, env: SdkEnv, cardholderName: string, document: string): (m: Option<string>)
    ensures m.Some? <==>
              !SdkAvailable(env) || Trim(cardholderName) == [] || |DigitsOnly(document)| != 11
              || !s.mpReady || s.paymentMethodId == ""
    ensures !SdkAvailable(env) ==> m == Some(CardUnavailableMessage)
    ensures SdkAvailable(env) && Trim(cardholderName) == [] ==> m == Some(HolderMissingMessage)
    ensures SdkAvailable(env) && Trim(cardholderName) != [] && |DigitsOnly(document)| != 11 ==> m == Some(CpfRequiredMessage)
    ensures SdkAvailable(env) && Trim(cardholderName) != [] && |DigitsOnly(document)| == 11 && !s.mpReady ==>
              m == Some(FieldsLoadingMessage)
    ensures SdkAvailable(env) && Trim(cardholderName) != [] && |DigitsOnly(document)| == 11
            && s.mpReady && s.paymentMethodId == "" ==>
              m == Some(CardUnidentifiedMessage)
  {
    if !SdkAvailable(env) then Some(CardUnavailableMessage)
    else if Trim(cardholderName) == [] then Some(HolderMissingMessage)
    else if |DigitsOnly(document)| != 11 then Some(CpfRequiredMessage)
    else if !s.mpReady then Some(FieldsLoadingMessage)
    else if s.paymentMethodId == "" then Some(CardUnidentifiedMessage)
    else None
  }

  /** The card block handed to `onSubmit`. */
  function CardDataOf(s: CardState, token: string): CardData {
    CardData(Some(token), Some(s.bin), if s.issuerId != "" then Some(s.issuerId) else None,
             Some(Finite(s.installments)), Some(s.paymentMethodId))
  }

  /** `submitCreditCard()` with the buyer's document from the order form. */
  function SubmitCreditCard(
    s: CardState, env: SdkEnv, cardholderName: string, document: string, token: TokenReply): (r: (CardState, seq<Effect>))
    // a failing guard shows its message and does nothing else
    ensures GuardFailure(s, env, cardholderName, document).Some? ==>
              r == (s.(cardError := GuardFailure(s, env, cardholderName, document)), [])
    // past the guards, tokenizing always ends
    ensures GuardFailure(s, env, cardholderName, document).None? ==> !r.0.tokenizing
    ensures GuardFailure(s, env, cardholderName, document).None? && !s.hasFields ==>
              r == (s.(cardError := Some(FieldsLoadingMessage), tokenizing := false), [])
    ensures GuardFailure(s, env, cardholderName, document).None? && s.hasFields ==>
              && |r.1| >= 1
              && r.1[0] == Tokenize(Trim(cardholderName), "CPF", DigitsOnly(document))
    // a response without a token id is reported and not submitted
    ensures GuardFailure(s, env, cardholderName, document).None? && s.hasFields
            && token.TokenAnswered? && !Present(token.id) ==>
              r.0.cardError == Some(TokenMissingMessage) && |r.1| == 1
    // a token is submitted with the selected card data
    ensures GuardFailure(s, env, cardholderName, document).None? && s.hasFields
            && token.TokenAnswered? && Present(token.id) ==>
              r.0.cardError.None? && r.1 == [Tokenize(Trim(cardholderName), "CPF", DigitsOnly(document)),
                                             Submit(CardDataOf(s, token.id.value))]
    ensures token.TokenThrew? && GuardFailure(s, env, cardholderName, document).None? && s.hasFields ==>
              r.0.cardError == Some("Erro ao processar cartão: " + token.rendered) && |r.1| == 1
    ensures forall i :: 0 <= i < |r.1| ==> r.1[i].Tokenize? || r.1[i].Submit?
    ensures r.0.(cardError := s.cardError, tokenizing := s.tokenizing) == s
  {
    var guard := GuardFailure(s, env, cardholderName, document);
    if guard.Some? then (s.(cardError := guard), [])
    else if !s.hasFields then (s.(cardError := Some(FieldsLoadingMessage), tokenizing := false), [])
    else
      var tokenize := [Tokenize(Trim(cardholderName), "CPF", DigitsOnly(document))];
      match token
      case TokenThrew(rendered) =>
        (s.(cardError := Some("Erro ao processar cartão: " + rendered), tokenizing := false), tokenize)
      case TokenAnswered(id) =>
        if !Present(id) then (s.(cardError := Some(TokenMissingMessage), tokenizing := false), tokenize)
        else (s.(cardError := None, tokenizing := false), tokenize + [Submit(CardDataOf(s, id.value))])
  }

  /** A card can reach `onSubmit` only when every guard passes and the SDK
      produced a token; the submitted block carries the form's current bin,
      payment method and installments. */
  lemma SubmitOnlyWithToken(s: CardState, env: SdkEnv, cardholderName: string, document: string, token: TokenReply)
    ensures var r := SubmitCreditCard(s, env, cardholderName, document, token);
            (exists i :: 0 <= i < |r.1| && r.1[i].Submit?) <==>
              && SdkAvailable(env) && Trim(cardholderName) != [] && |DigitsOnly(document)| == 11
              && s.mpReady && s.paymentMethodId != "" && s.hasFields
              && token.TokenAnswered? && Present(token.id)
  {
    var r := SubmitCreditCard(s, env, cardholderName, document, token);
    if GuardFailure(s, env, cardholderName, document).None? && s.hasFields
       && token.TokenAnswered? && Present(token.id) {
      assert r.1[1].Submit?;
    }
  }

  /** After a teardown a card submit stops at the readiness guard at the
      latest: nothing is tokenized. */
  lemma NoSubmitAfterTeardown(s: CardState, env: SdkEnv, cardholderName: string, document: string, token: TokenReply)
    ensures SubmitCreditCard(Teardown(s), env, cardholderName, document, token).1 == []
  {
  }
}
