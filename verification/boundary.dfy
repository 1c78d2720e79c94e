/**
 * What the JavaScript façade sends, read by the native modules: the façade's
 * normalised arguments are always in the shape the native side expects.
 */
module Boundary {
  import opened Wrappers
  import opened RnValues
  import Money
  import Facade
  import IosBridge
  import AndroidModule

  /** A forwarded line item as the iOS module receives it: a dictionary of two strings. */
  function EncodeLineItem(w: Facade.WireLineItem): Json {
    JObject(map["label" := JString(w.itemLabel), "amount" := JString(w.amount)])
  }

  function EncodeLineItems(ws: seq<Facade.WireLineItem>): (r: seq<Json>)
    ensures |r| == |ws| && forall i :: 0 <= i < |ws| ==> r[i] == EncodeLineItem(ws[i])
  {
    seq(|ws|, i requires 0 <= i < |ws| => EncodeLineItem(ws[i]))
  }

  /** `Decimal(string:)` reads every two-decimal numeral as its value. */
  ghost predicate ReadsFixed2(decimal: string -> Option<real>) {
    forall s :: Money.ParseFixed2(s).Some? ==> decimal(s) == Some(Money.ParseFixed2(s).value as real / 100.0)
  }

  /**
   * The line items the façade forwards on iOS always pass the iOS module's
   * validation, arriving with the caller's labels and amounts, in order.
   */
  lemma FacadeLineItemsAcceptedByIos(params: Facade.ApplePayParams, decimal: string -> Option<real>)
    requires ReadsFixed2(decimal)
    ensures var o := Facade.AuthorizeApplePay("ios", params);
      var r := IosBridge.ConvertLineItems(EncodeLineItems(o.call.lineItems), decimal);
      && r.Success?
      && |r.value| == |params.lineItems|
      && forall i :: 0 <= i < |params.lineItems| ==>
           r.value[i] == IosBridge.SummaryItem(params.lineItems[i].itemLabel, params.lineItems[i].amountCents as real / 100.0)
  {
    var o := Facade.AuthorizeApplePay("ios", params);
    var json := EncodeLineItems(o.call.lineItems);
    forall i | 0 <= i < |json|
      ensures IosBridge.ValidLineItem(json[i], decimal)
      ensures IosBridge.SummaryItemOf(json[i], decimal)
           == IosBridge.SummaryItem(params.lineItems[i].itemLabel, params.lineItems[i].amountCents as real / 100.0)
    {
      EncodedItemAccepted(o.call.lineItems[i], params.lineItems[i].amountCents, decimal);
    }
  }

  /** One forwarded item whose amount reads as `cents` passes validation with that amount. */
  lemma EncodedItemAccepted(w: Facade.WireLineItem, cents: int, decimal: string -> Option<real>)
    requires ReadsFixed2(decimal) && Money.ParseFixed2(w.amount) == Some(cents)
    ensures IosBridge.ValidLineItem(EncodeLineItem(w), decimal)
    ensures IosBridge.SummaryItemOf(EncodeLineItem(w), decimal) == IosBridge.SummaryItem(w.itemLabel, cents as real / 100.0)
  {
  }

  /** The price the façade forwards reaches the Google Pay request unchanged and reads back as the caller's. */
  lemma GooglePayPriceReachesAndroid(s: AndroidModule.Module, os: Facade.Os, params: Facade.GooglePayParams,
                                     p: PromiseId, requestError: Option<string>)
    requires AndroidModule.Valid(s) && s.client.Some?
    ensures var call := Facade.AuthorizeGooglePay(os, params).call;
      var t := AndroidModule.AuthorizeGooglePayStep(s, call.price, call.billingAddressRequired, p, requestError);
      var request := t.log[|s.log|].googlePayRequest;
      && Money.ParseFixed2(request.totalPrice) == Some(params.priceCents)
      && request.billingAddressRequired == (params.billingAddressRequired != Some(false))
      && request.currencyCode == "USD"
  {
    var call := Facade.AuthorizeGooglePay(os, params).call;
    AndroidModule.AuthorizeGooglePayRequest(s, call.price, call.billingAddressRequired, p, requestError);
  }

  /**
   * The Venmo usages the façade's type allows reach the iOS request as the
   * matching usage; an omitted usage leaves the SDK default.
   */
  lemma VenmoUsageReachesIos(os: Facade.Os, vault: bool, usage: Option<string>)
    requires usage == None || usage == Some("multiUse") || usage == Some("singleUse")
    ensures var call := Facade.AuthorizeVenmo(os, Facade.VenmoParams(vault, usage)).call;
      var request := IosBridge.BuildVenmoRequest(call.vault, call.paymentMethodUsage);
      && request.vault == vault
      && (usage == None ==> request.paymentMethodUsage == None)
      && (usage == Some("multiUse") ==> request.paymentMethodUsage == Some(IosBridge.MultiUse))
      && (usage == Some("singleUse") ==> request.paymentMethodUsage == Some(IosBridge.SingleUse))
  {
  }

  /** Both native modules resolve a tokenized card with exactly the keys of `CardResponse`. */
  lemma CardResponsesAgreeOnKeys(c: IosBridge.TokenizedCard, n: AndroidModule.CardNonce)
    ensures IosBridge.CardJson(c).Keys == AndroidModule.CardMap(n).Keys == CardResponseKeys
  {
  }
}
