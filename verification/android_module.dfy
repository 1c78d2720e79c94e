/**
 * The Android native module
 * (android/src/main/java/com/reactnativebraintreesdk/BraintreeSdkModule.java).
 * The module object is the class `BraintreeSdkModule`: the Braintree client
 * and its three sub-clients, and two promise slots, `venmoPromise` and
 * `googlePayPromise`, written by the authorize methods and read by the
 * activity-result listener. Each method is specified by a step function on
 * the abstract state `Module`.
 *
 * SDK listeners run at once with the outcome the caller supplies. A
 * dereference of a null field or a null callback argument is recorded as a
 * `NullPointer` event and ends the operation, as the exception would.
 */
module AndroidModule {
  import opened Wrappers
  import opened RnValues

  /** `BraintreeClient`, made from a client token. */
  datatype BraintreeClient = BraintreeClient(authorization: string)

  /** `VenmoClient`, `DataCollector` and `GooglePayClient`, each made from the client. */
  datatype SubClient = SubClient(client: BraintreeClient)

  /** `VenmoPaymentMethodUsage`. */
  datatype VenmoPaymentMethodUsage = MultiUse | SingleUse

  datatype VenmoRequest = VenmoRequest(paymentMethodUsage: VenmoPaymentMethodUsage, shouldVault: bool)

  /** `WalletConstants.TOTAL_PRICE_STATUS_*`. */
  datatype TotalPriceStatus = PriceStatusFinal | PriceStatusEstimated | PriceStatusNotCurrentlyKnown

  /** A `GooglePayRequest` with its `TransactionInfo`. */
  datatype GooglePayRequest = GooglePayRequest(
    totalPrice: string, totalPriceStatus: TotalPriceStatus, currencyCode: string, billingAddressRequired: bool)

  datatype VenmoAccountNonce = VenmoAccountNonce(nonce: string, username: string)

  /** `CardNonce`: its getters may return null, except the nonce string. */
  datatype CardNonce = CardNonce(
    nonce: string,
    cardType: Option<string>,
    expirationMonth: Option<string>,
    expirationYear: Option<string>,
    cardholderName: Option<string>,
    lastTwo: Option<string>,
    lastFour: Option<string>,
    bin: Option<string>)

  /**
   * A logged call: a resolve or reject, a Venmo, card or Google Pay request,
   * or a NullPointerException. `isReadyToPay`, `collectDeviceData` and the
   * sub-clients' `onActivityResult` enter only through their outcomes.
   */
  datatype Event =
    | Resolve(promise: PromiseId, value: Value)
    | Reject(promise: PromiseId, code: string, message: string)
    | TokenizeVenmo(venmoRequest: VenmoRequest)
    | RequestPayment(googlePayRequest: GooglePayRequest)
    | TokenizeCard(card: CardDetails)
    | NullPointer(site: string)

  /** The abstract state of a `BraintreeSdkModule`. */
  datatype Module = Module(
    client: Option<BraintreeClient>,
    venmoClient: Option<SubClient>,
    dataCollector: Option<SubClient>,
    googlePayClient: Option<SubClient>,
    venmoPromise: Option<PromiseId>,
    googlePayPromise: Option<PromiseId>,
    log: seq<Event>)

  /** The sub-clients exist exactly when the client does, and are made from it. */
  predicate Valid(s: Module) {
    && (s.client.None? ==> s.venmoClient.None? && s.dataCollector.None? && s.googlePayClient.None?)
    && (s.client.Some? ==>
          s.venmoClient == Some(SubClient(s.client.value)) &&
          s.dataCollector == Some(SubClient(s.client.value)) &&
          s.googlePayClient == Some(SubClient(s.client.value)))
  }

  function Emit(s: Module, e: Event): Module {
    s.(log := s.log + [e])
  }

  function SetupStep(s: Module, clientToken: string, p: PromiseId): Module {
    var c := BraintreeClient(clientToken);
    Emit(s.(client := Some(c), venmoClient := Some(SubClient(c)), dataCollector := Some(SubClient(c)),
            googlePayClient := Some(SubClient(c))),
         Resolve(p, VBool(true)))
  }

  /**
   * `paymentMethodUsage == "multiUse" ? MULTI_USE : SINGLE_USE`, where `==`
   * compares references: `sameReference` says whether the argument is the
   * very string object of the literal.
   */
  function VenmoUsage(paymentMethodUsage: Option<string>, sameReference: bool): (u: VenmoPaymentMethodUsage)
    ensures paymentMethodUsage != Some("multiUse") ==> u == SingleUse
    ensures u == MultiUse <==> paymentMethodUsage == Some("multiUse") && sameReference
  {
    if paymentMethodUsage.Some? && paymentMethodUsage.value == "multiUse" && sameReference then MultiUse else SingleUse
  }

  function AuthorizeVenmoStep(s: Module, vault: bool, paymentMethodUsage: Option<string>, sameReference: bool,
                              p: PromiseId, launchError: Option<string>): Module {
    var s1 := s.(venmoPromise := Some(p));
    var request := VenmoRequest(VenmoUsage(paymentMethodUsage, sameReference), vault);
    if s.venmoClient.None? then Emit(s1, NullPointer("venmoClient"))
    else
      var s2 := Emit(s1, TokenizeVenmo(request));
      if launchError.Some? then Emit(s2, Reject(p, "Error", launchError.value)) else s2
  }

  /** A pass-through to `isReadyToPay`. */
  function IsGooglePayAvailableStep(s: Module, p: PromiseId, isReadyToPay: bool, error: Option<string>): Module {
    if s.googlePayClient.None? then Emit(s, NullPointer("googlePayClient"))
    else if error.Some? then Emit(s, Reject(p, "Error", error.value))
    else Emit(s, Resolve(p, VBool(isReadyToPay)))
  }

  function AuthorizeGooglePayStep(s: Module, price: string, billingAddressRequired: bool, p: PromiseId,
                                  requestError: Option<string>): Module {
    var request := GooglePayRequest(price, PriceStatusFinal, "USD", billingAddressRequired);
    var s1 := s.(googlePayPromise := Some(p));
    if s.googlePayClient.None? then Emit(s1, NullPointer("googlePayClient"))
    else
      var s2 := Emit(s1, RequestPayment(request));
      if requestError.Some? then Emit(s2, Reject(p, "Error", requestError.value)) else s2
  }

  /** The map `getCardNonce` resolves with: exactly the `CardResponse` keys. */
  function CardMap(n: CardNonce): (m: map<string, Option<string>>)
    ensures m.Keys == CardResponseKeys
    ensures m["nonce"] == Some(n.nonce) && m["cardNetwork"] == n.cardType
    ensures m["expirationMonth"] == n.expirationMonth && m["expirationYear"] == n.expirationYear
    ensures m["cardholderName"] == n.cardholderName && m["bin"] == n.bin
    ensures m["lastTwo"] == n.lastTwo && m["lastFour"] == n.lastFour
  {
    map[
      "nonce" := Some(n.nonce),
      "cardNetwork" := n.cardType,
      "expirationMonth" := n.expirationMonth,
      "expirationYear" := n.expirationYear,
      "cardholderName" := n.cardholderName,
      "lastTwo" := n.lastTwo,
      "lastFour" := n.lastFour,
      "bin" := n.bin]
  }

  /** The card with `cvv` set only when one is given. */
  function BuildCard(cardNumber: string, expirationMonth: string, expirationYear: string, cvv: Option<string>): CardDetails {
    var card := CardDetails(cardNumber, expirationMonth, expirationYear, None);
    if cvv.Some? then card.(cvv := cvv) else card
  }

  function GetCardNonceStep(s: Module, cardNumber: string, expirationMonth: string, expirationYear: string,
                            cvv: Option<string>, p: PromiseId, tokenize: CardDetails -> SdkReply<CardNonce>): Module {
    var card := BuildCard(cardNumber, expirationMonth, expirationYear, cvv);
    var reply := tokenize(card);
    var s1 := Emit(s, TokenizeCard(card));
    if reply.result.Some? then Emit(s1, Resolve(p, VRecord(CardMap(reply.result.value))))
    else if reply.error.Some? then Emit(s1, Reject(p, "Error", reply.error.value))
    else Emit(s1, NullPointer("error"))
  }

  function VenmoResult(n: VenmoAccountNonce): Value {
    VRecord(map["nonce" := Some(n.nonce), "venmoUsername" := Some(n.username)])
  }

  /**
   * The Venmo branch of the listener. The second component is false when a
   * NullPointerException ends the whole listener. The data collector's guard
   * re-tests `venmoError`, already known to be null, so its error is never
   * looked at.
   */
  function VenmoBranch(s: Module, venmoReply: SdkReply<VenmoAccountNonce>, collectorError: Option<string>): (Module, bool)
    requires s.venmoPromise.Some?
  {
    var v := s.venmoPromise.value;
    if s.venmoClient.None? then (Emit(s, NullPointer("venmoClient")), false)
    else if venmoReply.error.Some? then (Emit(s, Reject(v, "VenmoError", venmoReply.error.value)), true)
    else if s.dataCollector.None? then (Emit(s, NullPointer("dataCollector")), false)
    else if venmoReply.error.Some? then (Emit(s, Reject(v, "VenmoError", collectorError.GetOr(""))), true)
    else if venmoReply.result.None? then (Emit(s, NullPointer("venmoAccountNonce")), false)
    else (Emit(s, Resolve(v, VenmoResult(venmoReply.result.value))), true)
  }

  /** The Google Pay branch: an error rejects `googlePayPromise`, a nonce resolves `venmoPromise`. */
  function GooglePayBranch(s: Module, googlePayReply: SdkReply<string>): Module
    requires s.googlePayPromise.Some?
  {
    var g := s.googlePayPromise.value;
    if s.googlePayClient.None? then Emit(s, NullPointer("googlePayClient"))
    else if googlePayReply.error.Some? then Emit(s, Reject(g, "Error", googlePayReply.error.value))
    else if googlePayReply.result.None? then Emit(s, NullPointer("paymentMethodNonce"))
    else if s.venmoPromise.None? then Emit(s, NullPointer("venmoPromise"))
    else Emit(s, Resolve(s.venmoPromise.value, VRecord(map["nonce" := Some(googlePayReply.result.value)])))
  }

  /** `onActivityResult`: the Venmo branch iff `venmoPromise` is set, then the Google Pay branch iff `googlePayPromise` is. */
  function OnActivityResultStep(s: Module, venmoReply: SdkReply<VenmoAccountNonce>, collectorError: Option<string>,
                                googlePayReply: SdkReply<string>): Module {
    var (s1, continues) := if s.venmoPromise.Some? then VenmoBranch(s, venmoReply, collectorError) else (s, true);
    if continues && s1.googlePayPromise.Some? then GooglePayBranch(s1, googlePayReply) else s1
  }

  // ---------------------------------------------------------------------------
  // Runs of operations

  /** One entry into the module: a bridged method call or an activity result. */
  datatype Call =
    | SetupCall(clientToken: string, promise: PromiseId)
    | AuthorizeVenmoCall(vault: bool, paymentMethodUsage: Option<string>, sameReference: bool, promise: PromiseId,
                         launchError: Option<string>)
    | IsGooglePayAvailableCall(promise: PromiseId, isReadyToPay: bool, readyError: Option<string>)
    | AuthorizeGooglePayCall(price: string, billingAddressRequired: bool, promise: PromiseId,
                             requestError: Option<string>)
    | GetCardNonceCall(cardNumber: string, expirationMonth: string, expirationYear: string, cvv: Option<string>,
                       promise: PromiseId, tokenize: CardDetails -> SdkReply<CardNonce>)
    | ActivityResultCall(venmoReply: SdkReply<VenmoAccountNonce>, collectorError: Option<string>,
                         googlePayReply: SdkReply<string>)

  function Apply(s: Module, c: Call): Module {
    match c
    case SetupCall(t, p) => SetupStep(s, t, p)
    case AuthorizeVenmoCall(v, u, r, p, e) => AuthorizeVenmoStep(s, v, u, r, p, e)
    case IsGooglePayAvailableCall(p, b, e) => IsGooglePayAvailableStep(s, p, b, e)
    case AuthorizeGooglePayCall(pr, b, p, e) => AuthorizeGooglePayStep(s, pr, b, p, e)
    case GetCardNonceCall(n, m, y, v, p, tok) => GetCardNonceStep(s, n, m, y, v, p, tok)
    case ActivityResultCall(vr, ce, gr) => OnActivityResultStep(s, vr, ce, gr)
  }

  function Run(s: Module, calls: seq<Call>): Module
    decreases |calls|
  {
    if calls == [] then s else Run(Apply(s, calls[0]), calls[1..])
  }

  // ---------------------------------------------------------------------------
  // Properties

  /** Every entry keeps the clients consistent. */
  lemma ApplyKeepsValid(s: Module, c: Call)
    requires Valid(s)
    ensures Valid(Apply(s, c))
  {
  }

  /**
   * Only `authorizeVenmo` writes `venmoPromise` and only `authorizeGooglePay`
   * writes `googlePayPromise`, each with its own promise; no entry resets
   * either slot.
   */
  lemma SlotWriters(s: Module, c: Call)
    ensures Apply(s, c).venmoPromise == (if c.AuthorizeVenmoCall? then Some(c.promise) else s.venmoPromise)
    ensures Apply(s, c).googlePayPromise == (if c.AuthorizeGooglePayCall? then Some(c.promise) else s.googlePayPromise)
  {
  }

  /** Neither slot is ever reset to null. */
  lemma {:induction false} SlotsNeverReset(s: Module, calls: seq<Call>)
    ensures s.venmoPromise.Some? ==> Run(s, calls).venmoPromise.Some?
    ensures s.googlePayPromise.Some? ==> Run(s, calls).googlePayPromise.Some?
    decreases |calls|
  {
    if calls != [] {
      SlotWriters(s, calls[0]);
      SlotsNeverReset(Apply(s, calls[0]), calls[1..]);
    }
  }

  /**
   * No client check: `authorizeVenmo` before `setup` stores its promise and
   * then fails on the null Venmo client; the promise is never settled.
   */
  lemma AuthorizeVenmoBeforeSetup(s: Module, vault: bool, usage: Option<string>, sameReference: bool,
                                  p: PromiseId, launchError: Option<string>)
    requires Valid(s) && s.client.None?
    ensures AuthorizeVenmoStep(s, vault, usage, sameReference, p, launchError)
         == s.(venmoPromise := Some(p), log := s.log + [NullPointer("venmoClient")])
  {
  }

  /**
   * After setup, `authorizeVenmo` stores its promise, sends a request with
   * the vault flag and SINGLE_USE for every usage but "multiUse", and an
   * immediate SDK error rejects that same stored promise with code "Error".
   */
  lemma AuthorizeVenmoRequest(s: Module, vault: bool, usage: Option<string>, sameReference: bool,
                              p: PromiseId, launchError: Option<string>)
    requires Valid(s) && s.client.Some?
    ensures var t := AuthorizeVenmoStep(s, vault, usage, sameReference, p, launchError);
      var request := VenmoRequest(VenmoUsage(usage, sameReference), vault);
      && t.venmoPromise == Some(p)
      && t.log == s.log + [TokenizeVenmo(request)] + (if launchError.Some? then [Reject(p, "Error", launchError.value)] else [])
      && (usage != Some("multiUse") ==> request.paymentMethodUsage == SingleUse)
  {
  }

  /** `authorizeGooglePay` asks for the given price, final, in US dollars, with the billing flag unchanged. */
  lemma AuthorizeGooglePayRequest(s: Module, price: string, billing: bool, p: PromiseId, requestError: Option<string>)
    requires Valid(s) && s.client.Some?
    ensures var t := AuthorizeGooglePayStep(s, price, billing, p, requestError);
      && t.googlePayPromise == Some(p)
      && t.log[|s.log|] == RequestPayment(GooglePayRequest(price, PriceStatusFinal, "USD", billing))
      && (requestError.Some? <==> |t.log| == |s.log| + 2)
      && (requestError.Some? ==> t.log[|s.log| + 1] == Reject(p, "Error", requestError.value))
  {
  }

  /** Card tokenization: the card keeps every field, `cvv` only when given; success resolves the eight-key map. */
  lemma GetCardNonceOutcome(s: Module, n: string, m: string, y: string, cvv: Option<string>, p: PromiseId,
                            tokenize: CardDetails -> SdkReply<CardNonce>)
    ensures var t := GetCardNonceStep(s, n, m, y, cvv, p, tokenize);
      var card := CardDetails(n, m, y, cvv);
      var reply := tokenize(card);
      && t.log[|s.log|] == TokenizeCard(card)
      && (reply.result.Some? ==>
            t.log[|s.log| + 1] == Resolve(p, VRecord(CardMap(reply.result.value))) &&
            VRecord(CardMap(reply.result.value)).fields.Keys == CardResponseKeys)
      && (reply.result.None? && reply.error.Some? ==> t.log[|s.log| + 1] == Reject(p, "Error", reply.error.value))
  {
  }

  /** The listener runs a branch exactly when its slot is set; both may run on one activity result. */
  lemma BranchSelection(s: Module, vr: SdkReply<VenmoAccountNonce>, ce: Option<string>, gr: SdkReply<string>)
    ensures s.venmoPromise.None? && s.googlePayPromise.None? ==> OnActivityResultStep(s, vr, ce, gr) == s
    ensures s.venmoPromise.None? && s.googlePayPromise.Some? ==> OnActivityResultStep(s, vr, ce, gr) == GooglePayBranch(s, gr)
    ensures s.venmoPromise.Some? && s.googlePayPromise.None? ==> OnActivityResultStep(s, vr, ce, gr) == VenmoBranch(s, vr, ce).0
    ensures s.venmoPromise.Some? && s.googlePayPromise.Some? && VenmoBranch(s, vr, ce).1 ==>
      OnActivityResultStep(s, vr, ce, gr) == GooglePayBranch(VenmoBranch(s, vr, ce).0, gr)
  {
  }

  /** The data collector's outcome never matters: the listener gives the same result whatever it reports. */
  lemma CollectorErrorIgnored(s: Module, vr: SdkReply<VenmoAccountNonce>, ce1: Option<string>, ce2: Option<string>,
                              gr: SdkReply<string>)
    ensures OnActivityResultStep(s, vr, ce1, gr) == OnActivityResultStep(s, vr, ce2, gr)
  {
  }

  /** The Venmo branch: an error rejects `venmoPromise` with "VenmoError"; otherwise it resolves with nonce and username. */
  lemma VenmoBranchOutcome(s: Module, vr: SdkReply<VenmoAccountNonce>, ce: Option<string>)
    requires Valid(s) && s.client.Some? && s.venmoPromise.Some?
    requires vr.error.Some? || vr.result.Some?
    ensures var (t, continues) := VenmoBranch(s, vr, ce);
      && continues
      && t.log == s.log + [
           if vr.error.Some? then Reject(s.venmoPromise.value, "VenmoError", vr.error.value)
           else Resolve(s.venmoPromise.value, VenmoResult(vr.result.value))]
  {
  }

  /**
   * A Google Pay nonce resolves `venmoPromise`, never `googlePayPromise`;
   * with no Venmo promise stored the listener fails on the null slot and
   * settles nothing.
   */
  lemma GooglePaySuccessResolvesVenmoPromise(s: Module, nonce: string)
    requires Valid(s) && s.client.Some? && s.googlePayPromise.Some?
    ensures var t := GooglePayBranch(s, SdkReply(Some(nonce), None));
      t.log == s.log + [
        if s.venmoPromise.Some? then Resolve(s.venmoPromise.value, VRecord(map["nonce" := Some(nonce)]))
        else NullPointer("venmoPromise")]
  {
  }

  /** A Google Pay error rejects `googlePayPromise` with code "Error". */
  lemma GooglePayErrorRejectsGooglePayPromise(s: Module, gr: SdkReply<string>)
    requires Valid(s) && s.client.Some? && s.googlePayPromise.Some? && gr.error.Some?
    ensures GooglePayBranch(s, gr).log == s.log + [Reject(s.googlePayPromise.value, "Error", gr.error.value)]
  {
  }

  /**
   * With both slots set and both flows successful, one activity result
   * resolves `venmoPromise` twice and leaves `googlePayPromise` unsettled.
   */
  lemma BothBranchesResolveVenmoPromise(s: Module, account: VenmoAccountNonce, ce: Option<string>, nonce: string)
    requires Valid(s) && s.client.Some? && s.venmoPromise.Some? && s.googlePayPromise.Some?
    ensures var t := OnActivityResultStep(s, SdkReply(Some(account), None), ce, SdkReply(Some(nonce), None));
      var v := s.venmoPromise.value;
      t.log == s.log + [Resolve(v, VenmoResult(account)), Resolve(v, VRecord(map["nonce" := Some(nonce)]))]
  {
  }

  // ---------------------------------------------------------------------------
  // The module object

  class BraintreeSdkModule {
    var client: Option<BraintreeClient>
    var venmoClient: Option<SubClient>
    var dataCollector: Option<SubClient>
    var googlePayClient: Option<SubClient>
    var venmoPromise: Option<PromiseId>
    var googlePayPromise: Option<PromiseId>
    /** The calls made so far on promises and the SDK, and the exceptions raised. */
    var log: seq<Event>

    function State(): Module
      reads this
    {
      Module(client, venmoClient, dataCollector, googlePayClient, venmoPromise, googlePayPromise, log)
    }

    constructor ()
      ensures State() == Module(None, None, None, None, None, None, [])
      ensures Valid(State())
    {
      client, venmoClient, dataCollector, googlePayClient := None, None, None, None;
      venmoPromise, googlePayPromise := None, None;
      log := [];
    }

    method Setup(clientToken: string, p: PromiseId)
      modifies this
      ensures State() == SetupStep(old(State()), clientToken, p)
      ensures Valid(State())
    {
      var c := BraintreeClient(clientToken);
      client := Some(c);
      venmoClient := Some(SubClient(c));
      dataCollector := Some(SubClient(c));
      googlePayClient := Some(SubClient(c));
      log := log + [Resolve(p, VBool(true))];
    }

    method AuthorizeVenmo(vault: bool, paymentMethodUsage: Option<string>, sameReference: bool, p: PromiseId,
                          launchError: Option<string>)
      modifies this
      ensures State() == AuthorizeVenmoStep(old(State()), vault, paymentMethodUsage, sameReference, p, launchError)
    {
      venmoPromise := Some(p);
      var usage := if paymentMethodUsage.Some? && paymentMethodUsage.value == "multiUse" && sameReference
                   then MultiUse else SingleUse;
      var request := VenmoRequest(usage, vault);
      if venmoClient.None? {
        log := log + [NullPointer("venmoClient")];
        return;
      }
      log := log + [TokenizeVenmo(request)];
      if launchError.Some? {
        log := log + [Reject(p, "Error", launchError.value)];
      }
    }

    method IsGooglePayAvailable(p: PromiseId, isReadyToPay: bool, error: Option<string>)
      modifies this
      ensures State() == IsGooglePayAvailableStep(old(State()), p, isReadyToPay, error)
    {
      if googlePayClient.None? {
        log := log + [NullPointer("googlePayClient")];
        return;
      }
      if error.Some? {
        log := log + [Reject(p, "Error", error.value)];
        return;
      }
      log := log + [Resolve(p, VBool(isReadyToPay))];
    }

    method AuthorizeGooglePay(price: string, billingAddressRequired: bool, p: PromiseId, requestError: Option<string>)
      modifies this
      ensures State() == AuthorizeGooglePayStep(old(State()), price, billingAddressRequired, p, requestError)
    {
      var request := GooglePayRequest(price, PriceStatusFinal, "USD", billingAddressRequired);
      googlePayPromise := Some(p);
      if googlePayClient.None? {
        log := log + [NullPointer("googlePayClient")];
        return;
      }
      log := log + [RequestPayment(request)];
      if requestError.Some? {
        log := log + [Reject(p, "Error", requestError.value)];
      }
    }

    method GetCardNonce(cardNumber: string, expirationMonth: string, expirationYear: string, cvv: Option<string>,
                        p: PromiseId, tokenize: CardDetails -> SdkReply<CardNonce>)
      modifies this
      ensures State() == GetCardNonceStep(old(State()), cardNumber, expirationMonth, expirationYear, cvv, p, tokenize)
    {
      var card := CardDetails(cardNumber, expirationMonth, expirationYear, None);
      if cvv.Some? {
        card := card.(cvv := cvv);
      }
      log := log + [TokenizeCard(card)];
      var reply := tokenize(card);
      if reply.result.Some? {
        log := log + [Resolve(p, VRecord(CardMap(reply.result.value)))];
      } else if reply.error.Some? {
        log := log + [Reject(p, "Error", reply.error.value)];
      } else {
        log := log + [NullPointer("error")];
      }
    }

    /** The activity event listener's `onActivityResult`. */
    method OnActivityResult(venmoReply: SdkReply<VenmoAccountNonce>, collectorError: Option<string>,
                            googlePayReply: SdkReply<string>)
      modifies this
      ensures State() == OnActivityResultStep(old(State()), venmoReply, collectorError, googlePayReply)
    {
      if venmoPromise.Some? {
        var v := venmoPromise.value;
        if venmoClient.None? {
          log := log + [NullPointer("venmoClient")];
          return;
        }
        if venmoReply.error.Some? {
          log := log + [Reject(v, "VenmoError", venmoReply.error.value)];
        } else if dataCollector.None? {
          log := log + [NullPointer("dataCollector")];
          return;
        } else if venmoReply.error.Some? {
          // The collector's guard re-tests the Venmo error, already known to be null: never taken.
          assert false;
        } else if venmoReply.result.None? {
          log := log + [NullPointer("venmoAccountNonce")];
          return;
        } else {
          log := log + [Resolve(v, VenmoResult(venmoReply.result.value))];
        }
      }
      if googlePayPromise.Some? {
        var g := googlePayPromise.value;
        if googlePayClient.None? {
          log := log + [NullPointer("googlePayClient")];
        } else if googlePayReply.error.Some? {
          log := log + [Reject(g, "Error", googlePayReply.error.value)];
        } else if googlePayReply.result.None? {
          log := log + [NullPointer("paymentMethodNonce")];
        } else if venmoPromise.None? {
          log := log + [NullPointer("venmoPromise")];
        } else {
          log := log + [Resolve(venmoPromise.value, VRecord(map["nonce" := Some(googlePayReply.result.value)]))];
        }
      }
    }
  }
}
