/**
 * The JavaScript façade (src/index.tsx). Every exported operation is a pure
 * decision: given the value of `Platform.OS` and the caller's parameters, it
 * either forwards a call with normalised positional arguments to the native
 * module, answers without calling native code, or throws.
 */
module Facade {
  import opened Wrappers
  import opened RnValues
  import Money

  /** `Platform.OS`: "ios", "android", or any other platform name. */
  type Os = string

  const ApplePayOnlyOnIos := "Apple Pay is only available on iOS"

  /** The networks `isApplePayAvailable` and `authorizeApplePay` forward when the caller names none. */
  const DefaultNetworks: seq<string> := ["AmEx", "Visa", "MasterCard"]

  /** An Apple Pay line item as the caller gives it; the amount is in whole cents. */
  datatype LineItem = LineItem(itemLabel: string, amountCents: int)

  /** A line item as it crosses to native code: the amount is a two-decimal string. */
  datatype WireLineItem = WireLineItem(itemLabel: string, amount: string)

  datatype VenmoParams = VenmoParams(vault: bool, paymentMethodUsage: Option<string>)

  datatype GooglePayParams = GooglePayParams(priceCents: int, billingAddressRequired: Option<bool>)

  datatype ApplePayParams = ApplePayParams(
    merchantId: string,
    lineItems: seq<LineItem>,
    contactFields: Option<seq<string>>,
    supportedNetworks: Option<seq<string>>)

  /** A call into the native module with its positional arguments (`None` is JavaScript `null`). */
  datatype NativeInvocation =
    | SetupCall(clientToken: string)
    | AuthorizeVenmoCall(vault: bool, paymentMethodUsage: Option<string>)
    | IsGooglePayAvailableCall
    | AuthorizeGooglePayCall(price: string, billingAddressRequired: bool)
    | IsVenmoAvailableCall
    | IsApplePayAvailableCall(networks: seq<string>)
    | AuthorizeApplePayCall(merchantId: string, lineItems: seq<WireLineItem>,
                            contactFields: Option<seq<string>>, networks: seq<string>)
    | GetCardNonceCall(cardNumber: string, expirationMonth: string, expirationYear: string, cvv: Option<string>)

  /**
   * What an operation does: its result is the native call's promise, a value
   * it answers without native code, or an error it throws.
   */
  datatype Outcome =
    | NativeCall(call: NativeInvocation)
    | Return(value: bool)
    | Throw(message: string)

  function Setup(os: Os, clientToken: string): (r: Outcome)
    ensures r == NativeCall(SetupCall(clientToken))
  {
    NativeCall(SetupCall(clientToken))
  }

  function AuthorizeVenmo(os: Os, params: VenmoParams): (r: Outcome)
    ensures r.NativeCall? && r.call.AuthorizeVenmoCall?
    ensures r.call.vault == params.vault
    ensures r.call.paymentMethodUsage.Some? <==> params.paymentMethodUsage.Some?
    ensures params.paymentMethodUsage.Some? ==> r.call.paymentMethodUsage == params.paymentMethodUsage
  {
    NativeCall(AuthorizeVenmoCall(params.vault, params.paymentMethodUsage))
  }

  function IsGooglePayAvailable(os: Os): (r: Outcome)
    ensures r.NativeCall? <==> os == "android"
    ensures !r.NativeCall? ==> r == Return(false)
  {
    if os != "android" then Return(false) else NativeCall(IsGooglePayAvailableCall)
  }

  /** No platform gate: the price is forwarded on every platform. */
  function AuthorizeGooglePay(os: Os, params: GooglePayParams): (r: Outcome)
    ensures r.NativeCall? && r.call.AuthorizeGooglePayCall?
    ensures r.call.price == Money.ToFixed2(params.priceCents)
    ensures Money.ParseFixed2(r.call.price) == Some(params.priceCents)
    ensures r.call.billingAddressRequired == (params.billingAddressRequired != Some(false))
  {
    Money.ToFixed2RoundTrip(params.priceCents);
    NativeCall(AuthorizeGooglePayCall(Money.ToFixed2(params.priceCents), params.billingAddressRequired.GetOr(true)))
  }

  function IsVenmoAvailable(os: Os): (r: Outcome)
    ensures r.NativeCall? <==> os == "ios"
    ensures !r.NativeCall? ==> r == Return(true)
  {
    if os == "ios" then NativeCall(IsVenmoAvailableCall) else Return(true)
  }

  function IsApplePayAvailable(os: Os, supportedNetworks: Option<seq<string>>): (r: Outcome)
    ensures r.NativeCall? <==> os == "ios"
    ensures !r.NativeCall? ==> r == Return(false)
    ensures r.NativeCall? ==> r.call.IsApplePayAvailableCall?
    ensures r.NativeCall? && supportedNetworks.Some? ==> r.call.networks == supportedNetworks.value
    ensures r.NativeCall? && supportedNetworks.None? ==> r.call.networks == DefaultNetworks
  {
    if os != "ios" then Return(false)
    else NativeCall(IsApplePayAvailableCall(supportedNetworks.GetOr(DefaultNetworks)))
  }

  /**
   * `item => ({label: item.label, amount: item.amount.toFixed(2)})`; the field
   * is `itemLabel` here because `label` is a Dafny keyword.
   */
  function ToWire(item: LineItem): WireLineItem {
    WireLineItem(item.itemLabel, Money.ToFixed2(item.amountCents))
  }

  /** `lineItems.map(ToWire)`: same length and order, labels kept, each amount the caller's in `toFixed(2)` form. */
  function MapToWire(items: seq<LineItem>): (r: seq<WireLineItem>)
    ensures |r| == |items|
    ensures forall i :: 0 <= i < |items| ==>
      && r[i].itemLabel == items[i].itemLabel
      && r[i].amount == Money.ToFixed2(items[i].amountCents)
      && Money.ParseFixed2(r[i].amount) == Some(items[i].amountCents)
  {
    if items == [] then []
    else
      Money.ToFixed2RoundTrip(items[0].amountCents);
      [ToWire(items[0])] + MapToWire(items[1..])
  }

  function AuthorizeApplePay(os: Os, params: ApplePayParams): (r: Outcome)
    ensures r.NativeCall? <==> os == "ios"
    ensures !r.NativeCall? ==> r == Throw(ApplePayOnlyOnIos)
    ensures r.NativeCall? ==>
      && r.call.AuthorizeApplePayCall?
      && r.call.merchantId == params.merchantId
      && |r.call.lineItems| == |params.lineItems|
      && r.call.contactFields == params.contactFields
      && r.call.networks == params.supportedNetworks.GetOr(DefaultNetworks)
    ensures r.NativeCall? ==> forall i :: 0 <= i < |params.lineItems| ==>
      && r.call.lineItems[i].itemLabel == params.lineItems[i].itemLabel
      && r.call.lineItems[i].amount == Money.ToFixed2(params.lineItems[i].amountCents)
      && Money.ParseFixed2(r.call.lineItems[i].amount) == Some(params.lineItems[i].amountCents)
  {
    if os != "ios" then Throw(ApplePayOnlyOnIos)
    else NativeCall(AuthorizeApplePayCall(
      params.merchantId,
      MapToWire(params.lineItems),
      params.contactFields,
      params.supportedNetworks.GetOr(DefaultNetworks)))
  }

  function GetCardNonce(os: Os, card: CardDetails): (r: Outcome)
    ensures r.NativeCall? && r.call.GetCardNonceCall?
    ensures CardDetails(r.call.cardNumber, r.call.expirationMonth, r.call.expirationYear, r.call.cvv) == card
  {
    NativeCall(GetCardNonceCall(card.cardNumber, card.expirationMonth, card.expirationYear, card.cvv))
  }

  // ---------------------------------------------------------------------------
  // The whole façade, and a declarative account of its platform gates.

  /** A call of one of the exported operations, with its parameters. */
  datatype Request =
    | SetupRequest(clientToken: string)
    | AuthorizeVenmoRequest(venmo: VenmoParams)
    | IsGooglePayAvailableRequest
    | AuthorizeGooglePayRequest(googlePay: GooglePayParams)
    | IsVenmoAvailableRequest
    | IsApplePayAvailableRequest(supportedNetworks: Option<seq<string>>)
    | AuthorizeApplePayRequest(applePay: ApplePayParams)
    | GetCardNonceRequest(card: CardDetails)

  function Dispatch(os: Os, req: Request): Outcome {
    match req
    case SetupRequest(t) => Setup(os, t)
    case AuthorizeVenmoRequest(v) => AuthorizeVenmo(os, v)
    case IsGooglePayAvailableRequest => IsGooglePayAvailable(os)
    case AuthorizeGooglePayRequest(g) => AuthorizeGooglePay(os, g)
    case IsVenmoAvailableRequest => IsVenmoAvailable(os)
    case IsApplePayAvailableRequest(n) => IsApplePayAvailable(os, n)
    case AuthorizeApplePayRequest(a) => AuthorizeApplePay(os, a)
    case GetCardNonceRequest(c) => GetCardNonce(os, c)
  }

  datatype Operation =
    | OpSetup | OpAuthorizeVenmo | OpIsGooglePayAvailable | OpAuthorizeGooglePay
    | OpIsVenmoAvailable | OpIsApplePayAvailable | OpAuthorizeApplePay | OpGetCardNonce

  function OperationOf(req: Request): Operation {
    match req
    case SetupRequest(_) => OpSetup
    case AuthorizeVenmoRequest(_) => OpAuthorizeVenmo
    case IsGooglePayAvailableRequest => OpIsGooglePayAvailable
    case AuthorizeGooglePayRequest(_) => OpAuthorizeGooglePay
    case IsVenmoAvailableRequest => OpIsVenmoAvailable
    case IsApplePayAvailableRequest(_) => OpIsApplePayAvailable
    case AuthorizeApplePayRequest(_) => OpAuthorizeApplePay
    case GetCardNonceRequest(_) => OpGetCardNonce
  }

  function InvokedOperation(call: NativeInvocation): Operation {
    match call
    case SetupCall(_) => OpSetup
    case AuthorizeVenmoCall(_, _) => OpAuthorizeVenmo
    case IsGooglePayAvailableCall => OpIsGooglePayAvailable
    case AuthorizeGooglePayCall(_, _) => OpAuthorizeGooglePay
    case IsVenmoAvailableCall => OpIsVenmoAvailable
    case IsApplePayAvailableCall(_) => OpIsApplePayAvailable
    case AuthorizeApplePayCall(_, _, _, _) => OpAuthorizeApplePay
    case GetCardNonceCall(_, _, _, _) => OpGetCardNonce
  }

  /** A platform gate: native code is reached everywhere, or only on one platform with a fixed answer elsewhere. */
  datatype Gate = Ungated | OnlyOn(os: Os, otherwise: Outcome)

  /** The gate table of the façade as written (authorizeGooglePay has none). */
  function GateOf(op: Operation): Gate {
    match op
    case OpIsGooglePayAvailable => OnlyOn("android", Return(false))
    case OpIsVenmoAvailable => OnlyOn("ios", Return(true))
    case OpIsApplePayAvailable => OnlyOn("ios", Return(false))
    case OpAuthorizeApplePay => OnlyOn("ios", Throw(ApplePayOnlyOnIos))
    case _ => Ungated
  }

  predicate Permits(g: Gate, os: Os) {
    g.Ungated? || g.os == os
  }

  /**
   * Every operation reaches native code exactly when its gate permits the
   * platform, and then calls the native method of the same name; otherwise it
   * gives the gate's fixed answer without any native call.
   */
  lemma GateTable(os: Os, req: Request)
    ensures Dispatch(os, req).NativeCall? <==> Permits(GateOf(OperationOf(req)), os)
    ensures Dispatch(os, req).NativeCall? ==> InvokedOperation(Dispatch(os, req).call) == OperationOf(req)
    ensures !Permits(GateOf(OperationOf(req)), os) ==> Dispatch(os, req) == GateOf(OperationOf(req)).otherwise
  {
    GatePermitsNativeCall(os, req);
    NativeCallNamesOperation(os, req);
    GatedAnswer(os, req);
  }

  lemma GatePermitsNativeCall(os: Os, req: Request)
    ensures Dispatch(os, req).NativeCall? <==> Permits(GateOf(OperationOf(req)), os)
  {
    match req {
      case SetupRequest(_) =>
      case AuthorizeVenmoRequest(_) =>
      case IsGooglePayAvailableRequest =>
      case AuthorizeGooglePayRequest(_) =>
      case IsVenmoAvailableRequest =>
      case IsApplePayAvailableRequest(_) =>
      case AuthorizeApplePayRequest(_) =>
      case GetCardNonceRequest(_) =>
    }
  }

  lemma NativeCallNamesOperation(os: Os, req: Request)
    ensures Dispatch(os, req).NativeCall? ==> InvokedOperation(Dispatch(os, req).call) == OperationOf(req)
  {
    match req {
      case SetupRequest(_) =>
      case AuthorizeVenmoRequest(_) =>
      case IsGooglePayAvailableRequest =>
      case AuthorizeGooglePayRequest(_) =>
      case IsVenmoAvailableRequest =>
      case IsApplePayAvailableRequest(_) =>
      case AuthorizeApplePayRequest(_) =>
      case GetCardNonceRequest(_) =>
    }
  }

  lemma GatedAnswer(os: Os, req: Request)
    ensures !Permits(GateOf(OperationOf(req)), os) ==> Dispatch(os, req) == GateOf(OperationOf(req)).otherwise
  {
    match req {
      case SetupRequest(_) =>
      case AuthorizeVenmoRequest(_) =>
      case IsGooglePayAvailableRequest =>
      case AuthorizeGooglePayRequest(_) =>
      case IsVenmoAvailableRequest =>
      case IsApplePayAvailableRequest(_) =>
      case AuthorizeApplePayRequest(_) =>
      case GetCardNonceRequest(_) =>
    }
  }

  /** The only operation that throws is authorizeApplePay, and only off iOS. */
  lemma OnlyApplePayThrows(os: Os, req: Request)
    ensures Dispatch(os, req).Throw? <==> req.AuthorizeApplePayRequest? && os != "ios"
  {
  }

  // ---------------------------------------------------------------------------
  // Forwarding loses nothing: the native side can recover every parameter.

  /** The request with its `??` defaults applied (`null` defaults stay absent). */
  function WithDefaults(req: Request): Request {
    match req
    case AuthorizeGooglePayRequest(g) =>
      AuthorizeGooglePayRequest(g.(billingAddressRequired := Some(g.billingAddressRequired.GetOr(true))))
    case IsApplePayAvailableRequest(n) =>
      IsApplePayAvailableRequest(Some(n.GetOr(DefaultNetworks)))
    case AuthorizeApplePayRequest(a) =>
      AuthorizeApplePayRequest(a.(supportedNetworks := Some(a.supportedNetworks.GetOr(DefaultNetworks))))
    case _ => req
  }

  function FromWire(items: seq<WireLineItem>): Option<seq<LineItem>> {
    if items == [] then Some([])
    else
      match (Money.ParseFixed2(items[0].amount), FromWire(items[1..]))
      case (Some(c), Some(rest)) => Some([LineItem(items[0].itemLabel, c)] + rest)
      case _ => None
  }

  /** Reads a native call back as the request it carries, as the native side sees its arguments. */
  function Recover(call: NativeInvocation): Option<Request> {
    match call
    case SetupCall(t) => Some(SetupRequest(t))
    case AuthorizeVenmoCall(v, u) => Some(AuthorizeVenmoRequest(VenmoParams(v, u)))
    case IsGooglePayAvailableCall => Some(IsGooglePayAvailableRequest)
    case AuthorizeGooglePayCall(p, b) =>
      (match Money.ParseFixed2(p)
       case Some(c) => Some(AuthorizeGooglePayRequest(GooglePayParams(c, Some(b))))
       case None => None)
    case IsVenmoAvailableCall => Some(IsVenmoAvailableRequest)
    case IsApplePayAvailableCall(n) => Some(IsApplePayAvailableRequest(Some(n)))
    case AuthorizeApplePayCall(m, items, cf, n) =>
      (match FromWire(items)
       case Some(li) => Some(AuthorizeApplePayRequest(ApplePayParams(m, li, cf, Some(n))))
       case None => None)
    case GetCardNonceCall(n, mo, y, c) => Some(GetCardNonceRequest(CardDetails(n, mo, y, c)))
  }

  lemma {:induction false} FromWireMapToWire(items: seq<LineItem>)
    ensures FromWire(MapToWire(items)) == Some(items)
  {
    if items != [] {
      var w := MapToWire(items);
      assert w[1..] == MapToWire(items[1..]);
      FromWireMapToWire(items[1..]);
      assert [LineItem(w[0].itemLabel, items[0].amountCents)] + items[1..] == items;
    }
  }

  /**
   * Whenever native code is called, its arguments carry exactly the caller's
   * parameters with the defaults applied: no parameter is dropped, reordered
   * or altered, and each amount reads back as the amount given.
   */
  lemma ForwardingIsLossless(os: Os, req: Request)
    requires Dispatch(os, req).NativeCall?
    ensures Recover(Dispatch(os, req).call) == Some(WithDefaults(req))
  {
    match req
    case AuthorizeApplePayRequest(a) =>
      ApplePayForwardingIsLossless(a);
    case AuthorizeGooglePayRequest(g) =>
      GooglePayForwardingIsLossless(os, g);
    case _ =>
  }

  lemma ApplePayForwardingIsLossless(params: ApplePayParams)
    ensures Recover(AuthorizeApplePay("ios", params).call) == Some(WithDefaults(AuthorizeApplePayRequest(params)))
  {
    FromWireMapToWire(params.lineItems);
  }

  lemma GooglePayForwardingIsLossless(os: Os, params: GooglePayParams)
    ensures Recover(AuthorizeGooglePay(os, params).call) == Some(WithDefaults(AuthorizeGooglePayRequest(params)))
  {
  }

  /** The argument shapes and platform answers the package's tests expect, on iOS and on Android. */
  lemma DocumentedCalls()
    ensures AuthorizeVenmo("ios", VenmoParams(true, None)) == NativeCall(AuthorizeVenmoCall(true, None))
    ensures AuthorizeGooglePay("android", GooglePayParams(500, None)) == NativeCall(AuthorizeGooglePayCall("5.00", true))
    ensures AuthorizeApplePay("ios", ApplePayParams("merchant_id", [LineItem("Total", 500)], Some(["postalCode"]), None))
         == NativeCall(AuthorizeApplePayCall("merchant_id", [WireLineItem("Total", "5.00")], Some(["postalCode"]),
                                             ["AmEx", "Visa", "MasterCard"]))
    ensures IsApplePayAvailable("ios", Some(["visa"])) == NativeCall(IsApplePayAvailableCall(["visa"]))
    ensures IsApplePayAvailable("android", None) == Return(false)
    ensures IsVenmoAvailable("android") == Return(true)
    ensures IsGooglePayAvailable("ios") == Return(false)
    ensures AuthorizeApplePay("android", ApplePayParams("merchant_id", [LineItem("Total", 500)], None, None))
         == Throw("Apple Pay is only available on iOS")
  {
    assert Money.ToFixed2(500) == "5.00";
    assert MapToWire([LineItem("Total", 500)]) == [WireLineItem("Total", "5.00")];
  }

  /** authorizeGooglePay reaches native code on every platform, iOS included. */
  lemma AuthorizeGooglePayIsUngated(os: Os, params: GooglePayParams)
    ensures AuthorizeGooglePay(os, params).NativeCall?
    ensures AuthorizeGooglePay("ios", params) != Throw("Google Pay is only available on Android")
  {
  }
}
