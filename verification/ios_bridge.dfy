/**
 * The iOS native module (ios/BraintreeSdk.swift). Pure conversions (card
 * network names, the card JSON, Venmo usage, Apple Pay line items, the
 * payment request) are functions. The module object, with its Braintree
 * client, Apple Pay client and single pending-authorization slot, is the class
 * `BraintreeSdk`; each of its methods is specified by a step function on the
 * abstract state `Sdk`, and the lemmas about those step functions state the
 * slot protocol.
 *
 * Everything the module learns from the Braintree SDK, Foundation or PassKit
 * is a parameter: completion blocks run at once with the outcome the caller
 * supplies. The module's resolves and rejects, its card and Venmo tokenization
 * requests, and the creation and completion of the payment sheet are appended
 * to a log; its other SDK and PassKit calls enter only through their outcomes.
 */
module IosBridge {
  import opened Wrappers
  import opened RnValues

  const NotInitialized := "Braintree client is not initialized."
  const InvalidLineItems := "Invalid Apple Pay line items"
  const InvalidPaymentRequest := "Payment Request is invalid"

  // ---------------------------------------------------------------------------
  // Card networks and the card JSON

  /** `BTCardNetwork`. */
  datatype CardNetwork =
    | Unknown | AMEX | DinersClub | Discover | MasterCard | Visa | JCB | Laser
    | Maestro | UnionPay | Hiper | Hipercard | Solo | Switch | UKMaestro

  /** `networkName`: a fixed name per listed network, "Unknown" for every other value. */
  function NetworkName(n: CardNetwork): (name: string)
    ensures name == "Unknown" <==> n == Unknown
  {
    match n
    case AMEX => "AMEX"
    case DinersClub => "DinersClub"
    case Discover => "Discover"
    case MasterCard => "MasterCard"
    case Visa => "Visa"
    case JCB => "JCB"
    case Laser => "Laser"
    case Maestro => "Maestro"
    case UnionPay => "UnionPay"
    case Hiper => "Hiper"
    case Hipercard => "Hipercard"
    case Solo => "Solo"
    case Switch => "Switch"
    case UKMaestro => "UKMaestro"
    case Unknown => "Unknown"
  }

  /** The listed network a name stands for; the inverse of `NetworkName` on listed networks. */
  function NetworkNamed(name: string): Option<CardNetwork> {
    if name == "AMEX" then Some(AMEX)
    else if name == "DinersClub" then Some(DinersClub)
    else if name == "Discover" then Some(Discover)
    else if name == "MasterCard" then Some(MasterCard)
    else if name == "Visa" then Some(Visa)
    else if name == "JCB" then Some(JCB)
    else if name == "Laser" then Some(Laser)
    else if name == "Maestro" then Some(Maestro)
    else if name == "UnionPay" then Some(UnionPay)
    else if name == "Hiper" then Some(Hiper)
    else if name == "Hipercard" then Some(Hipercard)
    else if name == "Solo" then Some(Solo)
    else if name == "Switch" then Some(Switch)
    else if name == "UKMaestro" then Some(UKMaestro)
    else None
  }

  /** A listed network can be read back from its name; "Unknown" names no listed network. */
  lemma NetworkNameRoundTrip(n: CardNetwork)
    ensures n != Unknown ==> NetworkNamed(NetworkName(n)) == Some(n)
    ensures NetworkNamed(NetworkName(Unknown)) == None
  {
  }

  /** The fourteen listed networks have distinct names, all different from "Unknown". */
  lemma NetworkNameInjective(a: CardNetwork, b: CardNetwork)
    ensures NetworkName(a) == NetworkName(b) ==> a == b
  {
    NetworkNameRoundTrip(a);
    NetworkNameRoundTrip(b);
  }

  /** `BTCardNonce`: the tokenized card. */
  datatype TokenizedCard = TokenizedCard(
    network: CardNetwork,
    expirationMonth: Option<string>,
    expirationYear: Option<string>,
    cardholderName: Option<string>,
    lastTwo: Option<string>,
    lastFour: Option<string>,
    bin: Option<string>,
    nonce: string)

  /** `json`: exactly the `CardResponse` keys, each carrying the card field of that name. */
  function CardJson(c: TokenizedCard): (m: map<string, Option<string>>)
    ensures m.Keys == CardResponseKeys
    ensures m["cardNetwork"] == Some(NetworkName(c.network)) && m["nonce"] == Some(c.nonce)
    ensures m["expirationMonth"] == c.expirationMonth && m["expirationYear"] == c.expirationYear
    ensures m["cardholderName"] == c.cardholderName && m["bin"] == c.bin
    ensures m["lastTwo"] == c.lastTwo && m["lastFour"] == c.lastFour
  {
    map[
      "cardNetwork" := Some(NetworkName(c.network)),
      "expirationMonth" := c.expirationMonth,
      "expirationYear" := c.expirationYear,
      "cardholderName" := c.cardholderName,
      "lastTwo" := c.lastTwo,
      "lastFour" := c.lastFour,
      "bin" := c.bin,
      "nonce" := Some(c.nonce)]
  }

  // ---------------------------------------------------------------------------
  // Venmo

  /** `BTVenmoPaymentMethodUsage`. */
  datatype PaymentMethodUsage = MultiUse | SingleUse | Unspecified

  /** `convertPaymentMethodUsage`: total; only the two exact names map to a usage. */
  function ConvertPaymentMethodUsage(s: string): (u: PaymentMethodUsage)
    ensures u == MultiUse <==> s == "multiUse"
    ensures u == SingleUse <==> s == "singleUse"
  {
    if s == "multiUse" then MultiUse
    else if s == "singleUse" then SingleUse
    else Unspecified
  }

  /** `BTVenmoRequest`; an absent usage is the SDK's own default, left untouched. */
  datatype VenmoRequest = VenmoRequest(vault: bool, paymentMethodUsage: Option<PaymentMethodUsage>)

  /** The Venmo account the SDK returns. */
  datatype VenmoAccount = VenmoAccount(username: string, nonce: string)

  // ---------------------------------------------------------------------------
  // Apple Pay: line items and the payment request

  datatype Capability = Capability3DS | CapabilityEMV | CapabilityCredit | CapabilityDebit

  /** `PKPaymentSummaryItem`. */
  datatype SummaryItem = SummaryItem(itemLabel: string, amount: real)

  /** The parts of `PKPaymentRequest` the module reads or writes. */
  datatype PaymentRequest = PaymentRequest(
    merchantIdentifier: string,
    countryCode: string,
    currencyCode: string,
    merchantCapabilities: set<Capability>,
    paymentSummaryItems: seq<SummaryItem>,
    requiredBillingContactFields: set<string>,
    supportedNetworks: seq<string>)

  /**
   * Foundation and PassKit as the module uses them, left uninterpreted:
   * `Decimal(string:)`, the `PKPaymentNetwork` and `PKContactField`
   * constructors, `canMakePayments(usingNetworks:)`, and whether the
   * failable `PKPaymentAuthorizationViewController` initialiser gives a sheet.
   */
  datatype Host = Host(
    decimal: string -> Option<real>,
    paymentNetwork: string -> Option<string>,
    contactField: string -> Option<string>,
    canMakePayments: seq<string> -> bool,
    makesSheet: PaymentRequest -> bool)

  /** Swift's `compactMap` over strings: the defined images, in order. */
  function CompactMap(xs: seq<string>, f: string -> Option<string>): (r: seq<string>)
    ensures |r| <= |xs|
    ensures (forall i :: 0 <= i < |xs| ==> f(xs[i]).Some?) ==>
      |r| == |xs| && forall i :: 0 <= i < |xs| ==> Some(r[i]) == f(xs[i])
    ensures forall y :: y in r <==> exists x :: x in xs && f(x) == Some(y)
  {
    if xs == [] then []
    else
      var rest := CompactMap(xs[1..], f);
      assert forall x :: x in xs <==> x == xs[0] || x in xs[1..];
      match f(xs[0])
      case Some(y) => [y] + rest
      case None => rest
  }

  /** `compactMap` of one element: its image if defined, else nothing. */
  lemma CompactMapSingleton(x: string, f: string -> Option<string>)
    ensures CompactMap([x], f) == (if f(x).Some? then [f(x).value] else [])
  {
    assert [x][1..] == [];
  }

  /**
   * `compactMap` distributes over concatenation. With the singleton case this
   * fixes the output completely: the defined images in input order, each
   * element contributing at most one.
   */
  lemma {:induction false} CompactMapAppend(xs: seq<string>, ys: seq<string>, f: string -> Option<string>)
    ensures CompactMap(xs + ys, f) == CompactMap(xs, f) + CompactMap(ys, f)
    decreases |xs|
  {
    if xs == [] {
      assert xs + ys == ys;
    } else {
      assert (xs + ys)[0] == xs[0];
      assert (xs + ys)[1..] == xs[1..] + ys;
      CompactMapAppend(xs[1..], ys, f);
    }
  }

  /** The thrown `RNBraintreeSdkError`. */
  datatype ConversionError = InvalidApplePayLineItems

  /** An element `convertLineItemsFromJSON` accepts: a string dictionary with a "label" and a decimal "amount". */
  predicate ValidLineItem(item: Json, decimal: string -> Option<real>) {
    && item.JObject?
    && (forall k :: k in item.fields ==> item.fields[k].JString?)
    && "amount" in item.fields
    && decimal(item.fields["amount"].s).Some?
    && "label" in item.fields
  }

  function SummaryItemOf(item: Json, decimal: string -> Option<real>): SummaryItem
    requires ValidLineItem(item, decimal)
  {
    SummaryItem(item.fields["label"].s, decimal(item.fields["amount"].s).value)
  }

  /**
   * `convertLineItemsFromJSON`, a throwing map: it succeeds exactly when every
   * element is valid, keeping length, order, labels and the parsed amounts,
   * and otherwise throws for the whole list.
   */
  function ConvertLineItems(json: seq<Json>, decimal: string -> Option<real>): (r: Result<seq<SummaryItem>, ConversionError>)
    ensures r.Success? <==> forall i :: 0 <= i < |json| ==> ValidLineItem(json[i], decimal)
    ensures r.Failure? ==> r.error == InvalidApplePayLineItems
    ensures r.Success? ==> |r.value| == |json|
    ensures r.Success? ==> forall i :: 0 <= i < |json| ==>
      ValidLineItem(json[i], decimal) && r.value[i] == SummaryItemOf(json[i], decimal)
  {
    if json == [] then Success([])
    else if !ValidLineItem(json[0], decimal) then Failure(InvalidApplePayLineItems)
    else
      match ConvertLineItems(json[1..], decimal)
      case Failure(e) => Failure(e)
      case Success(rest) => Success([SummaryItemOf(json[0], decimal)] + rest)
  }

  /**
   * The request the module fills in from the one the SDK supplies: fixed
   * country, currency and capability, the caller's merchant and summary
   * items, and contact fields and networks replaced only when supplied.
   */
  function BuildPaymentRequest(base: PaymentRequest, merchantId: string, items: seq<SummaryItem>,
                               contactFields: Option<seq<string>>, networks: Option<seq<string>>,
                               host: Host): (r: PaymentRequest)
    ensures r.countryCode == "US" && r.currencyCode == "USD" && r.merchantCapabilities == {Capability3DS}
    ensures r.merchantIdentifier == merchantId && r.paymentSummaryItems == items
    ensures contactFields.None? ==> r.requiredBillingContactFields == base.requiredBillingContactFields
    ensures contactFields.Some? ==> forall f :: f in r.requiredBillingContactFields <==>
      exists c :: c in contactFields.value && host.contactField(c) == Some(f)
    ensures networks.None? ==> r.supportedNetworks == base.supportedNetworks
    ensures networks.Some? ==> r.supportedNetworks == CompactMap(networks.value, host.paymentNetwork)
  {
    var withContacts :=
      if contactFields.Some?
      then base.(requiredBillingContactFields := set f | f in CompactMap(contactFields.value, host.contactField))
      else base;
    var withNetworks :=
      if networks.Some?
      then withContacts.(merchantIdentifier := merchantId, supportedNetworks := CompactMap(networks.value, host.paymentNetwork))
      else withContacts.(merchantIdentifier := merchantId);
    withNetworks.(merchantCapabilities := {Capability3DS}, countryCode := "US", currencyCode := "USD",
                  paymentSummaryItems := items)
  }

  // ---------------------------------------------------------------------------
  // The module's state and its operations

  /** `BTAPIClient`, made from a client token. */
  datatype ApiClient = ApiClient(authorization: string)

  /** `BTApplePayClient`, made from the API client. */
  datatype ApplePayClient = ApplePayClient(api: ApiClient)

  datatype AuthorizationStatus = StatusSuccess | StatusFailure

  /** A logged call: a resolve or reject, a card or Venmo tokenization, or a sheet created or completed. */
  datatype Event =
    | Resolve(promise: PromiseId, value: Value)
    | Reject(promise: PromiseId, code: string, message: string)
    | TokenizeCard(card: CardDetails)
    | TokenizeVenmo(venmoRequest: VenmoRequest)
    /**
     * The failable `PKPaymentAuthorizationViewController` initialiser gave a
     * sheet for this request. Whether a root view controller exists to present
     * it is not part of this model, so this is not proof that it was shown.
     */
    | SheetCreated(paymentRequest: PaymentRequest)
    | Complete(status: AuthorizationStatus)

  /** The abstract state of a `BraintreeSdk` object; `pending` is `inProgressPromise`. */
  datatype Sdk = Sdk(client: Option<ApiClient>, applePay: Option<ApplePayClient>, pending: Option<PromiseId>, log: seq<Event>)

  function Emit(s: Sdk, e: Event): Sdk {
    s.(log := s.log + [e])
  }

  /**
   * `setup`: the failable `BTAPIClient(authorization:)` either accepts the
   * token or gives nil, which replaces any earlier client; the promise is
   * resolved with nil either way.
   */
  function SetupStep(s: Sdk, clientToken: string, tokenAccepted: bool, p: PromiseId): Sdk {
    var client := if tokenAccepted then Some(ApiClient(clientToken)) else None;
    Emit(s.(client := client), Resolve(p, VNull))
  }

  /** The card with `cvv` set only when one is given. */
  function BuildCard(cardNumber: string, expirationMonth: string, expirationYear: string, cvv: Option<string>): CardDetails {
    var card := CardDetails(cardNumber, expirationMonth, expirationYear, None);
    if cvv.Some? then card.(cvv := cvv) else card
  }

  function GetCardNonceStep(s: Sdk, cardNumber: string, expirationMonth: string, expirationYear: string,
                            cvv: Option<string>, p: PromiseId,
                            tokenize: CardDetails -> SdkReply<TokenizedCard>): Sdk {
    if s.client.None? then Emit(s, Reject(p, "", NotInitialized))
    else
      var card := BuildCard(cardNumber, expirationMonth, expirationYear, cvv);
      var reply := tokenize(card);
      var s1 := Emit(s, TokenizeCard(card));
      match reply.result
      case Some(c) => Emit(s1, Resolve(p, VRecord(CardJson(c))))
      case None => Emit(s1, Reject(p, "", reply.error.GetOr("")))
  }

  function IsVenmoAvailableStep(s: Sdk, p: PromiseId, appSwitchAvailable: bool): Sdk {
    if s.client.None? then Emit(s, Reject(p, "", NotInitialized))
    else Emit(s, Resolve(p, VBool(appSwitchAvailable)))
  }

  function BuildVenmoRequest(vault: bool, paymentMethodUsage: Option<string>): VenmoRequest {
    var request := VenmoRequest(vault, None);
    if paymentMethodUsage.Some?
    then request.(paymentMethodUsage := Some(ConvertPaymentMethodUsage(paymentMethodUsage.value)))
    else request
  }

  function VenmoResponse(a: VenmoAccount): Value {
    VRecord(map["venmoUsername" := Some(a.username), "nonce" := Some(a.nonce)])
  }

  function AuthorizeVenmoStep(s: Sdk, vault: bool, paymentMethodUsage: Option<string>, p: PromiseId,
                              tokenize: VenmoRequest -> SdkReply<VenmoAccount>): Sdk {
    if s.client.None? then Emit(s, Reject(p, "", NotInitialized))
    else
      var request := BuildVenmoRequest(vault, paymentMethodUsage);
      var reply := tokenize(request);
      var s1 := Emit(s, TokenizeVenmo(request));
      match reply.result
      case Some(a) => Emit(s1, Resolve(p, VenmoResponse(a)))
      case None => Emit(s1, Reject(p, "", reply.error.GetOr("")))
  }

  /** The networks `isApplePayAvailable` asks PassKit about. */
  function QueriedNetworks(supportedNetworks: Option<seq<string>>, host: Host): seq<string> {
    match supportedNetworks
    case Some(n) => CompactMap(n, host.paymentNetwork)
    case None => []
  }

  /** No client check: PassKit alone answers. */
  function IsApplePayAvailableStep(s: Sdk, supportedNetworks: Option<seq<string>>, p: PromiseId, host: Host): Sdk {
    Emit(s, Resolve(p, VBool(host.canMakePayments(QueriedNetworks(supportedNetworks, host)))))
  }

  /**
   * `authorizeApplePay`: the client check, then the line items, then the SDK's
   * payment request; the slot is written only when the sheet's view
   * controller is created.
   */
  function AuthorizeApplePayStep(s: Sdk, merchantId: string, lineItems: seq<Json>,
                                 contactFields: Option<seq<string>>, supportedNetworks: Option<seq<string>>,
                                 p: PromiseId, host: Host, sdkRequest: SdkReply<PaymentRequest>): Sdk {
    if s.client.None? then Emit(s, Reject(p, "", NotInitialized))
    else
      match ConvertLineItems(lineItems, host.decimal)
      case Failure(_) => Emit(s, Reject(p, "", InvalidLineItems))
      case Success(items) =>
        var s1 := s.(applePay := Some(ApplePayClient(s.client.value)));
        match sdkRequest.result
        case None => Emit(s1, Reject(p, "", sdkRequest.error.GetOr("")))
        case Some(base) =>
          var request := BuildPaymentRequest(base, merchantId, items, contactFields, supportedNetworks, host);
          if host.makesSheet(request) then Emit(s1.(pending := Some(p)), SheetCreated(request))
          else Emit(s1, Reject(p, "", InvalidPaymentRequest))
  }

  /**
   * The delegate's `didAuthorizePayment`: tokenizes through the Apple Pay
   * client (nothing happens without one), settles the pending promise and
   * completes the sheet. The slot is read, never cleared.
   */
  function DidAuthorizePaymentStep(s: Sdk, tokenized: SdkReply<string>): Sdk {
    if s.applePay.None? then s
    else
      match s.pending
      case None => Emit(s, Complete(StatusFailure))
      case Some(q) =>
        match tokenized.result
        case Some(nonce) => Emit(Emit(s, Resolve(q, VRecord(map["nonce" := Some(nonce)]))), Complete(StatusSuccess))
        case None => Emit(Emit(s, Reject(q, "", tokenized.error.GetOr(""))), Complete(StatusFailure))
  }

  // ---------------------------------------------------------------------------
  // Runs of operations

  /** One entry into the module: a bridged method call or the payment-sheet delegate callback. */
  datatype Call =
    | SetupCall(clientToken: string, tokenAccepted: bool, promise: PromiseId)
    | GetCardNonceCall(cardNumber: string, expirationMonth: string, expirationYear: string, cvv: Option<string>,
                       promise: PromiseId, tokenizeCard: CardDetails -> SdkReply<TokenizedCard>)
    | IsVenmoAvailableCall(promise: PromiseId, appSwitchAvailable: bool)
    | AuthorizeVenmoCall(vault: bool, paymentMethodUsage: Option<string>, promise: PromiseId,
                         tokenizeVenmo: VenmoRequest -> SdkReply<VenmoAccount>)
    | IsApplePayAvailableCall(supportedNetworks: Option<seq<string>>, promise: PromiseId, host: Host)
    | AuthorizeApplePayCall(merchantId: string, lineItems: seq<Json>, contactFields: Option<seq<string>>,
                            networks: Option<seq<string>>, promise: PromiseId, host: Host,
                            sdkRequest: SdkReply<PaymentRequest>)
    | DidAuthorizePaymentCall(tokenized: SdkReply<string>)

  function Apply(s: Sdk, c: Call): Sdk {
    match c
    case SetupCall(t, a, p) => SetupStep(s, t, a, p)
    case GetCardNonceCall(n, m, y, v, p, tok) => GetCardNonceStep(s, n, m, y, v, p, tok)
    case IsVenmoAvailableCall(p, a) => IsVenmoAvailableStep(s, p, a)
    case AuthorizeVenmoCall(v, u, p, tok) => AuthorizeVenmoStep(s, v, u, p, tok)
    case IsApplePayAvailableCall(n, p, h) => IsApplePayAvailableStep(s, n, p, h)
    case AuthorizeApplePayCall(m, li, cf, n, p, h, r) => AuthorizeApplePayStep(s, m, li, cf, n, p, h, r)
    case DidAuthorizePaymentCall(t) => DidAuthorizePaymentStep(s, t)
  }

  function Run(s: Sdk, calls: seq<Call>): Sdk
    decreases |calls|
  {
    if calls == [] then s else Run(Apply(s, calls[0]), calls[1..])
  }

  /** True when `e` resolves or rejects promise `p`. */
  predicate Settles(e: Event, p: PromiseId) {
    (e.Resolve? || e.Reject?) && e.promise == p
  }

  /** How many events of `log` resolve or reject promise `p`. */
  function CountSettles(log: seq<Event>, p: PromiseId): (n: nat)
    ensures n <= |log|
    ensures n == 0 <==> forall i :: 0 <= i < |log| ==> !Settles(log[i], p)
    decreases |log|
  {
    if log == [] then 0
    else (if Settles(log[0], p) then 1 else 0) + CountSettles(log[1..], p)
  }

  lemma {:induction false} CountSettlesAppend(a: seq<Event>, b: seq<Event>, p: PromiseId)
    ensures CountSettles(a + b, p) == CountSettles(a, p) + CountSettles(b, p)
    decreases |a|
  {
    if a == [] {
      assert a + b == b;
    } else {
      assert (a + b)[0] == a[0];
      assert (a + b)[1..] == a[1..] + b;
      CountSettlesAppend(a[1..], b, p);
    }
  }

  // ---------------------------------------------------------------------------
  // Properties

  /** While the client is nil, each guarded operation only rejects its promise. */
  lemma GuardedWhenUninitialised(s: Sdk, c: Call)
    requires s.client.None?
    requires c.GetCardNonceCall? || c.IsVenmoAvailableCall? || c.AuthorizeVenmoCall? || c.AuthorizeApplePayCall?
    ensures Apply(s, c) == s.(log := s.log + [Reject(c.promise, "", NotInitialized)])
  {
  }

  /**
   * A token `BTAPIClient(authorization:)` refuses still resolves `setup`, but
   * leaves no client (discarding any earlier one), so every guarded call
   * after it rejects as uninitialised.
   */
  lemma RefusedTokenResolvesSetup(s: Sdk, clientToken: string, p: PromiseId, c: Call)
    requires c.GetCardNonceCall? || c.IsVenmoAvailableCall? || c.AuthorizeVenmoCall? || c.AuthorizeApplePayCall?
    ensures var s1 := SetupStep(s, clientToken, false, p);
      && s1.log == s.log + [Resolve(p, VNull)] && s1.client.None?
      && Apply(s1, c) == s1.(log := s1.log + [Reject(c.promise, "", NotInitialized)])
  {
    GuardedWhenUninitialised(SetupStep(s, clientToken, false, p), c);
  }

  /** `isApplePayAvailable` needs no client: it resolves with PassKit's answer either way. */
  lemma IsApplePayAvailableUnguarded(s: Sdk, networks: Option<seq<string>>, p: PromiseId, host: Host)
    ensures IsApplePayAvailableStep(s, networks, p, host).log
         == s.log + [Resolve(p, VBool(host.canMakePayments(QueriedNetworks(networks, host))))]
  {
  }

  /**
   * Invalid line items are rejected after the client check and before any
   * Apple Pay client is made or the slot is touched.
   */
  lemma InvalidLineItemsRejectFirst(s: Sdk, merchantId: string, lineItems: seq<Json>,
                                    contactFields: Option<seq<string>>, networks: Option<seq<string>>,
                                    p: PromiseId, host: Host, sdkRequest: SdkReply<PaymentRequest>)
    requires s.client.Some?
    requires exists i :: 0 <= i < |lineItems| && !ValidLineItem(lineItems[i], host.decimal)
    ensures AuthorizeApplePayStep(s, merchantId, lineItems, contactFields, networks, p, host, sdkRequest)
         == s.(log := s.log + [Reject(p, "", InvalidLineItems)])
  {
  }

  /**
   * The slot changes only when a sheet is created, and then holds the
   * creating call's promise; every other outcome of every entry leaves it
   * as it was.
   */
  lemma SlotWrittenOnlyWithSheet(s: Sdk, c: Call)
    ensures Apply(s, c).pending == s.pending ||
      (c.AuthorizeApplePayCall? && Apply(s, c).pending == Some(c.promise) &&
       Apply(s, c).log[|Apply(s, c).log| - 1].SheetCreated?)
    ensures c.AuthorizeApplePayCall? && |Apply(s, c).log| > 0 && Apply(s, c).log[|Apply(s, c).log| - 1].SheetCreated? ==>
      Apply(s, c).pending == Some(c.promise)
  {
  }

  /** A created sheet asks for the caller's merchant and items, in US dollars with 3-D Secure. */
  lemma SheetRequestShape(s: Sdk, merchantId: string, lineItems: seq<Json>,
                              contactFields: Option<seq<string>>, networks: Option<seq<string>>,
                              p: PromiseId, host: Host, sdkRequest: SdkReply<PaymentRequest>)
    requires var t := AuthorizeApplePayStep(s, merchantId, lineItems, contactFields, networks, p, host, sdkRequest);
      |t.log| > 0 && t.log[|t.log| - 1].SheetCreated?
    ensures var t := AuthorizeApplePayStep(s, merchantId, lineItems, contactFields, networks, p, host, sdkRequest);
      var r := t.log[|t.log| - 1].paymentRequest;
      && r.countryCode == "US" && r.currencyCode == "USD" && r.merchantCapabilities == {Capability3DS}
      && r.merchantIdentifier == merchantId
      && ConvertLineItems(lineItems, host.decimal) == Success(r.paymentSummaryItems)
      && host.makesSheet(r)
  {
  }

  /**
   * With a pending promise, one delegate callback resolves or rejects that
   * promise (resolved with the nonce exactly when tokenization succeeded) and
   * then completes the sheet with the matching status.
   */
  lemma DelegateSettlesExactlyOnce(s: Sdk, tokenized: SdkReply<string>)
    requires s.applePay.Some? && s.pending.Some?
    ensures var t := DidAuthorizePaymentStep(s, tokenized);
      var added := t.log[|s.log|..];
      && t.pending == s.pending && t.client == s.client && t.applePay == s.applePay
      && |added| == 2
      && Settles(added[0], s.pending.value)
      && added[1] == Complete(if added[0].Resolve? then StatusSuccess else StatusFailure)
      && (added[0].Resolve? <==> tokenized.result.Some?)
      && (tokenized.result.Some? ==> added[0].value == VRecord(map["nonce" := Some(tokenized.result.value)]))
      && (tokenized.result.None? ==> added[0] == Reject(s.pending.value, "", tokenized.error.GetOr("")))
  {
    var t := DidAuthorizePaymentStep(s, tokenized);
    assert t.log == s.log + t.log[|s.log|..];
  }

  /** Without a pending promise the delegate settles no promise and fails the sheet. */
  lemma DelegateWithoutPendingTouchesNoPromise(s: Sdk, tokenized: SdkReply<string>)
    requires s.pending.None?
    ensures var t := DidAuthorizePaymentStep(s, tokenized);
      t.log == s.log + (if s.applePay.Some? then [Complete(StatusFailure)] else [])
  {
  }

  /**
   * Every bridged method settles only its own promise, and settles it exactly
   * once, unless it is an `authorizeApplePay` that created a sheet: that one
   * settles nothing and leaves its promise to the delegate.
   */
  lemma MethodSettlesOwnPromiseOnce(s: Sdk, c: Call)
    requires !c.DidAuthorizePaymentCall?
    ensures |Apply(s, c).log| > |s.log| && Apply(s, c).log[..|s.log|] == s.log
    ensures var added := Apply(s, c).log[|s.log|..];
      && (forall i :: 0 <= i < |added| && (added[i].Resolve? || added[i].Reject?) ==> added[i].promise == c.promise)
      && CountSettles(added, c.promise) == (if c.AuthorizeApplePayCall? && added[|added| - 1].SheetCreated? then 0 else 1)
  {
    var added := Apply(s, c).log[|s.log|..];
    MethodAddsOneSettlementOrSheet(s, c);
    CountSettlesShort(added, c.promise);
  }

  /**
   * What a bridged method appends: its own settlement, possibly after one SDK
   * request, or, for `authorizeApplePay`, a created sheet alone.
   */
  predicate OwnSettlement(added: seq<Event>, p: PromiseId) {
    || (|added| == 1 && Settles(added[0], p))
    || (|added| == 2 && (added[0].TokenizeCard? || added[0].TokenizeVenmo?) && Settles(added[1], p))
  }

  lemma MethodAddsOneSettlementOrSheet(s: Sdk, c: Call)
    requires !c.DidAuthorizePaymentCall?
    ensures |Apply(s, c).log| > |s.log| && Apply(s, c).log[..|s.log|] == s.log
    ensures var added := Apply(s, c).log[|s.log|..];
      || OwnSettlement(added, c.promise)
      || (c.AuthorizeApplePayCall? && |added| == 1 && added[0].SheetCreated?)
  {
    match c {
      case SetupCall(_, _, _) =>
      case GetCardNonceCall(_, _, _, _, _, _) =>
      case IsVenmoAvailableCall(_, _) =>
      case AuthorizeVenmoCall(_, _, _, _) =>
      case IsApplePayAvailableCall(_, _, _) =>
      case AuthorizeApplePayCall(_, _, _, _, _, _, _) =>
    }
  }

  /** The count on a log of one or two events. */
  lemma CountSettlesShort(log: seq<Event>, p: PromiseId)
    requires |log| == 1 || |log| == 2
    ensures CountSettles(log, p) == (if Settles(log[0], p) then 1 else 0) + (if |log| == 2 && Settles(log[1], p) then 1 else 0)
  {
    if |log| == 2 {
      assert log[1..][1..] == [];
    }
  }

  /**
   * The slot is never cleared, so every further delegate callback settles
   * the same pending promise again: a run of `n` callbacks calls its
   * resolver or rejecter `n` times.
   */
  lemma {:induction false} RepeatedCallbacksSettleRepeatedly(s: Sdk, calls: seq<Call>)
    requires s.applePay.Some? && s.pending.Some?
    requires forall i :: 0 <= i < |calls| ==> calls[i].DidAuthorizePaymentCall?
    ensures |Run(s, calls).log| >= |s.log| && Run(s, calls).log[..|s.log|] == s.log
    ensures CountSettles(Run(s, calls).log[|s.log|..], s.pending.value) == |calls|
    decreases |calls|
  {
    if calls == [] {
      assert Run(s, calls).log[|s.log|..] == [];
    } else {
      var s1 := Apply(s, calls[0]);
      CallbackSettlesPendingOnce(s, calls[0]);
      var step := s1.log[|s.log|..];
      RepeatedCallbacksSettleRepeatedly(s1, calls[1..]);
      var t := Run(s1, calls[1..]);
      assert Run(s, calls) == t;
      var rest := t.log[|s1.log|..];
      SuffixSplit(s.log, s1.log, t.log);
      CountSettlesAppend(step, rest, s.pending.value);
    }
  }

  /** The part of a log after a prefix `a` is the part up to `b`, then the part after `b`. */
  lemma SuffixSplit(a: seq<Event>, b: seq<Event>, c: seq<Event>)
    requires |a| <= |b| <= |c| && b[..|a|] == a && c[..|b|] == b
    ensures c[|a|..] == b[|a|..] + c[|b|..]
  {
  }

  /** One delegate callback with a pending promise adds one settlement of it and keeps both clients and the slot. */
  lemma CallbackSettlesPendingOnce(s: Sdk, c: Call)
    requires s.applePay.Some? && s.pending.Some? && c.DidAuthorizePaymentCall?
    ensures var s1 := Apply(s, c);
      && s1.applePay == s.applePay && s1.pending == s.pending
      && |s1.log| >= |s.log| && s1.log[..|s.log|] == s.log
      && CountSettles(s1.log[|s.log|..], s.pending.value) == 1
  {
    var s1 := Apply(s, c);
    DelegateSettlesExactlyOnce(s, c.tokenized);
    var step := s1.log[|s.log|..];
    assert step[1..][1..] == [];
  }

  /** The log only grows. */
  lemma {:induction false} RunExtendsLog(s: Sdk, calls: seq<Call>)
    ensures |Run(s, calls).log| >= |s.log| && Run(s, calls).log[..|s.log|] == s.log
    decreases |calls|
  {
    if calls != [] {
      var s1 := Apply(s, calls[0]);
      assert s1.log[..|s.log|] == s.log;
      RunExtendsLog(s1, calls[1..]);
      assert Run(s, calls).log[..|s1.log|] == s1.log;
    }
  }

  /** Once a sheet has been created the slot is never empty again: nothing clears it. */
  lemma {:induction false} SlotNeverCleared(s: Sdk, calls: seq<Call>)
    requires s.pending.Some?
    ensures Run(s, calls).pending.Some?
    decreases |calls|
  {
    if calls != [] {
      SlotWrittenOnlyWithSheet(s, calls[0]);
      SlotNeverCleared(Apply(s, calls[0]), calls[1..]);
    }
  }

  /** The promise an entry settles on its own behalf (the delegate has none). */
  function PromiseOf(c: Call): Option<PromiseId> {
    if c.DidAuthorizePaymentCall? then None else Some(c.promise)
  }

  /** One entry settles no promise other than its own and the one in the slot. */
  lemma ApplySettlesOwnOrPending(s: Sdk, c: Call, q: PromiseId)
    requires PromiseOf(c) != Some(q) && s.pending != Some(q)
    ensures Apply(s, c).pending != Some(q)
    ensures |Apply(s, c).log| >= |s.log|
    ensures forall i :: |s.log| <= i < |Apply(s, c).log| ==> !Settles(Apply(s, c).log[i], q)
  {
    match c {
      case SetupCall(_, _, _) =>
      case GetCardNonceCall(_, _, _, _, _, _) =>
      case IsVenmoAvailableCall(_, _) =>
      case AuthorizeVenmoCall(_, _, _, _) =>
      case IsApplePayAvailableCall(_, _, _) =>
      case AuthorizeApplePayCall(_, _, _, _, _, _, _) =>
      case DidAuthorizePaymentCall(_) =>
    }
  }

  /**
   * The overwritten slot: once the slot holds another promise than `q`, no
   * later run of entries that do not themselves carry `q` ever settles `q`.
   * A first `authorizeApplePay` whose slot a second one overwrote never settles.
   */
  lemma {:induction false} OverwrittenPromiseNeverSettles(s: Sdk, calls: seq<Call>, q: PromiseId)
    requires s.pending != Some(q)
    requires forall i :: 0 <= i < |calls| ==> PromiseOf(calls[i]) != Some(q)
    ensures |Run(s, calls).log| >= |s.log|
    ensures forall i :: |s.log| <= i < |Run(s, calls).log| ==> !Settles(Run(s, calls).log[i], q)
    decreases |calls|
  {
    if calls != [] {
      var s1 := Apply(s, calls[0]);
      ApplySettlesOwnOrPending(s, calls[0], q);
      OverwrittenPromiseNeverSettles(s1, calls[1..], q);
      RunExtendsLog(s1, calls[1..]);
      var t := Run(s, calls);
      assert t == Run(s1, calls[1..]);
      forall i | |s.log| <= i < |t.log|
        ensures !Settles(t.log[i], q)
      {
        if i < |s1.log| {
          assert t.log[i] == t.log[..|s1.log|][i] == s1.log[i];
        }
      }
    }
  }

  /** A second created sheet replaces the first caller's promise in the slot. */
  lemma SecondSheetOverwrites(s: Sdk, c: Call)
    requires c.AuthorizeApplePayCall?
    requires |Apply(s, c).log| > 0 && Apply(s, c).log[|Apply(s, c).log| - 1].SheetCreated?
    ensures Apply(s, c).pending == Some(c.promise)
    ensures s.pending.Some? && s.pending != Some(c.promise) ==> Apply(s, c).pending != s.pending
  {
  }

  // ---------------------------------------------------------------------------
  // The module object

  class BraintreeSdk {
    var braintreeClient: Option<ApiClient>
    var braintreeApple: Option<ApplePayClient>
    var inProgressPromise: Option<PromiseId>
    /** The calls made so far on promises, the SDK and the payment sheet. */
    var log: seq<Event>

    function State(): Sdk
      reads this
    {
      Sdk(braintreeClient, braintreeApple, inProgressPromise, log)
    }

    constructor ()
      ensures State() == Sdk(None, None, None, [])
    {
      braintreeClient := None;
      braintreeApple := None;
      inProgressPromise := None;
      log := [];
    }

    method Setup(clientToken: string, tokenAccepted: bool, p: PromiseId)
      modifies this
      ensures State() == SetupStep(old(State()), clientToken, tokenAccepted, p)
    {
      braintreeClient := if tokenAccepted then Some(ApiClient(clientToken)) else None;
      log := log + [Resolve(p, VNull)];
    }

    method GetCardNonce(cardNumber: string, expirationMonth: string, expirationYear: string, cvv: Option<string>,
                        p: PromiseId, tokenize: CardDetails -> SdkReply<TokenizedCard>)
      modifies this
      ensures State() == GetCardNonceStep(old(State()), cardNumber, expirationMonth, expirationYear, cvv, p, tokenize)
    {
      if braintreeClient.None? {
        log := log + [Reject(p, "", NotInitialized)];
        return;
      }
      var card := CardDetails(cardNumber, expirationMonth, expirationYear, None);
      if cvv.Some? {
        card := card.(cvv := cvv);
      }
      log := log + [TokenizeCard(card)];
      var reply := tokenize(card);
      if reply.result.None? {
        log := log + [Reject(p, "", reply.error.GetOr(""))];
        return;
      }
      log := log + [Resolve(p, VRecord(CardJson(reply.result.value)))];
    }

    method IsVenmoAvailable(p: PromiseId, appSwitchAvailable: bool)
      modifies this
      ensures State() == IsVenmoAvailableStep(old(State()), p, appSwitchAvailable)
    {
      if braintreeClient.None? {
        log := log + [Reject(p, "", NotInitialized)];
        return;
      }
      log := log + [Resolve(p, VBool(appSwitchAvailable))];
    }

    method AuthorizeVenmo(vault: bool, paymentMethodUsage: Option<string>, p: PromiseId,
                          tokenize: VenmoRequest -> SdkReply<VenmoAccount>)
      modifies this
      ensures State() == AuthorizeVenmoStep(old(State()), vault, paymentMethodUsage, p, tokenize)
    {
      if braintreeClient.None? {
        log := log + [Reject(p, "", NotInitialized)];
        return;
      }
      var request := VenmoRequest(vault, None);
      if paymentMethodUsage.Some? {
        request := request.(paymentMethodUsage := Some(ConvertPaymentMethodUsage(paymentMethodUsage.value)));
      }
      log := log + [TokenizeVenmo(request)];
      var reply := tokenize(request);
      if reply.result.None? {
        log := log + [Reject(p, "", reply.error.GetOr(""))];
        return;
      }
      log := log + [Resolve(p, VenmoResponse(reply.result.value))];
    }

    method IsApplePayAvailable(supportedNetworks: Option<seq<string>>, p: PromiseId, host: Host)
      modifies this
      ensures State() == IsApplePayAvailableStep(old(State()), supportedNetworks, p, host)
    {
      var networks := if supportedNetworks.Some? then Some(CompactMap(supportedNetworks.value, host.paymentNetwork)) else None;
      var isAvailable := host.canMakePayments(networks.GetOr([]));
      log := log + [Resolve(p, VBool(isAvailable))];
    }

    method AuthorizeApplePay(merchantId: string, lineItems: seq<Json>, contactFields: Option<seq<string>>,
                             supportedNetworks: Option<seq<string>>, p: PromiseId, host: Host,
                             sdkRequest: SdkReply<PaymentRequest>)
      modifies this
      ensures State() == AuthorizeApplePayStep(old(State()), merchantId, lineItems, contactFields,
                                               supportedNetworks, p, host, sdkRequest)
    {
      if braintreeClient.None? {
        log := log + [Reject(p, "", NotInitialized)];
        return;
      }
      var converted := ConvertLineItems(lineItems, host.decimal);
      if converted.Failure? {
        log := log + [Reject(p, "", InvalidLineItems)];
        return;
      }
      var items := converted.value;
      braintreeApple := Some(ApplePayClient(braintreeClient.value));
      if sdkRequest.result.None? {
        log := log + [Reject(p, "", sdkRequest.error.GetOr(""))];
        return;
      }
      var request := BuildPaymentRequest(sdkRequest.result.value, merchantId, items, contactFields,
                                         supportedNetworks, host);
      if host.makesSheet(request) {
        inProgressPromise := Some(p);
        log := log + [SheetCreated(request)];
      } else {
        log := log + [Reject(p, "", InvalidPaymentRequest)];
      }
    }

    /** `paymentAuthorizationViewController(_:didAuthorizePayment:handler:)`. */
    method DidAuthorizePayment(tokenized: SdkReply<string>)
      modifies this
      ensures State() == DidAuthorizePaymentStep(old(State()), tokenized)
    {
      if braintreeApple.None? {
        return;
      }
      if inProgressPromise.None? {
        log := log + [Complete(StatusFailure)];
        return;
      }
      var promise := inProgressPromise.value;
      if tokenized.result.Some? {
        log := log + [Resolve(promise, VRecord(map["nonce" := Some(tokenized.result.value)]))];
        log := log + [Complete(StatusSuccess)];
      } else {
        log := log + [Reject(promise, "", tokenized.error.GetOr(""))];
        log := log + [Complete(StatusFailure)];
      }
    }
  }
}
