# react-native-braintree-sdk, modelled in Dafny

This project models the core of `react-native-braintree-sdk`, a React Native
binding over the Braintree, PassKit and Google Pay SDKs. It has three parts.

- **The JavaScript façade** (`src/index.tsx`), module `Facade`. Each exported
  operation is a pure decision on `Platform.OS` and the caller's parameters.
  It yields `NativeCall(call)`, which forwards normalised positional arguments
  to the native module. It yields `Return(b)` when it answers without native
  code. It yields `Throw(msg)` when it fails without native code. The `??`
  defaults are `null`, `true`, and the network list `["AmEx", "Visa",
  "MasterCard"]`. Amounts are formatted with `toFixed(2)`, modelled by
  `Money.ToFixed2` on whole cents.
- **The iOS module** (`ios/BraintreeSdk.swift`), module `IosBridge`. Pure
  conversions are functions: card network names, the card JSON, Venmo usage,
  the all-or-nothing line-item conversion, and the payment request. The
  module object is the class `IosBridge.BraintreeSdk`, with the Braintree
  client, the Apple Pay client and the single pending-authorization slot
  `inProgressPromise`. Each method is specified by a step function on the
  abstract state `Sdk`.
- **The Android module** (`BraintreeSdkModule.java`), module `AndroidModule`.
  This is the class `AndroidModule.BraintreeSdkModule`, with the client, its
  three sub-clients, and the two promise slots `venmoPromise` and
  `googlePayPromise`. The activity-result listener dispatches on which slots
  are set.

Each native module appends to a log every resolve and reject it makes, the
card and Venmo tokenization requests, and on Android the Google Pay
`requestPayment`; on iOS also the creation of a payment sheet and its
completion. Other SDK calls (`paymentRequest`, `tokenizeApplePay`,
`isiOSAppAvailableForAppSwitch`, `isReadyToPay`, `collectDeviceData` and the
sub-clients' `onActivityResult`) are not logged; only their outcomes enter
the model. That lets "exactly one of resolve or
reject" and "no promise touched" be stated directly. SDK completion blocks
and listeners run at once, with outcomes supplied as parameters. On Android, a
dereference of a null field or a null callback argument is logged as
`NullPointer(site)`, and that event ends the operation, as the exception
would.

Module `Boundary` connects the layers. The line items the façade forwards
pass the iOS validation, provided Foundation's `Decimal(string:)` reads every
two-decimal numeral (the premise `ReadsFixed2`). The Google Pay price reaches the Android
request unchanged. Both native modules resolve cards with exactly the keys of
the `CardResponse` type.

Where the package's documented intent and its code disagree, the model follows
the code:

- `authorizeGooglePay` has no platform gate (src/index.tsx:54-56). The test at
  src/__tests__/index.test.tsx:76-86 expects a rejection on iOS, with the
  message "Google Pay is only available on Android". `Facade.AuthorizeGooglePayIsUngated`
  states the code's behaviour.
- The iOS slot `inProgressPromise` is never cleared after the delegate
  callback. A second `authorizeApplePay` overwrites it, and the first caller's
  promise is then never settled (`IosBridge.OverwrittenPromiseNeverSettles`).
  Every further delegate callback settles the slot's promise again
  (`IosBridge.RepeatedCallbacksSettleRepeatedly`).
- `setup` resolves even when `BTAPIClient(authorization:)` refuses the token.
  The client is then nil, and every guarded call rejects as uninitialised
  (`IosBridge.RefusedTokenResolvesSetup`).
- The Android module is not symmetrical with iOS. A Google Pay nonce resolves
  `venmoPromise`, not `googlePayPromise`. No Android method checks that
  `setup` ran.

## Model

| member | source | states |
|---|---|---|
| `Money.ToFixed2` | src/index.tsx:55 | `toFixed(2)` of a whole-cent amount: a minus sign exactly for negative amounts, whole units without leading zeros ("0" exactly when under one unit), then a point followed by exactly two digits |
| `Money.ToFixed2RoundTrip` | src/index.tsx:102 | reading a formatted amount back as a two-decimal numeral gives the amount |
| `Money.ToFixed2Injective` | src/index.tsx:102 | different amounts never format to the same string |
| `Facade.Setup` | src/index.tsx:20-22 | on every platform the client token goes to native `setup` unchanged |
| `Facade.AuthorizeVenmo` | src/index.tsx:34-39 | on every platform forwards `vault` and the usage; an omitted usage becomes `null` |
| `Facade.IsGooglePayAvailable` | src/index.tsx:41-47 | calls native code iff the OS is "android"; elsewhere answers false |
| `Facade.AuthorizeGooglePay` | src/index.tsx:54-56 | always forwards; the price is the caller's price in `toFixed(2)` form and reads back as it; billing required unless the caller passed false |
| `Facade.IsVenmoAvailable` | src/index.tsx:60-66 | calls native code iff the OS is "ios"; elsewhere answers true |
| `Facade.IsApplePayAvailable` | src/index.tsx:68-74 | off iOS answers false; on iOS forwards the caller's networks, or the default list when omitted |
| `Facade.MapToWire` | src/index.tsx:99-104 | the mapped line items keep length, order and labels, and each amount is the caller's in `toFixed(2)` form and reads back as it |
| `Facade.AuthorizeApplePay` | src/index.tsx:92-108 | off iOS throws "Apple Pay is only available on iOS"; on iOS forwards merchant id, converted items, contact fields or null, networks or the default list |
| `Facade.GetCardNonce` | src/index.tsx:128-135 | forwards the four card fields positionally and unchanged, a null cvv included |
| `Facade.GateTable` | src/index.tsx:41-108 | an operation reaches native code iff its gate in a declarative table permits the OS, and then calls the native method of the same name; otherwise it gives the gate's fixed answer |
| `Facade.OnlyApplePayThrows` | src/index.tsx:92-95 | the only operation that throws is `authorizeApplePay`, and only off iOS |
| `Facade.FromWireMapToWire` | src/index.tsx:99-104 | reading the mapped line items back gives the caller's line items |
| `Facade.ForwardingIsLossless` | src/index.tsx:20-135 | whenever native code is called, its arguments read back as the caller's request with the defaults applied |
| `Facade.DocumentedCalls` | src/__tests__/index.test.tsx:46-176 | the argument shapes the tests expect, e.g. `(true, null)`, `("5.00", true)` and the default network list |
| `Facade.AuthorizeGooglePayIsUngated` | src/index.tsx:54-56 | `authorizeGooglePay` makes a native call on every platform and never throws the Android-only error |
| `IosBridge.NetworkName` | ios/BraintreeSdk.swift:9-44 | the name is "Unknown" exactly for the unlisted network |
| `IosBridge.NetworkNameRoundTrip` | ios/BraintreeSdk.swift:9-44 | every listed network is recovered from its name; "Unknown" names none |
| `IosBridge.NetworkNameInjective` | ios/BraintreeSdk.swift:9-44 | the fourteen listed networks have distinct names |
| `IosBridge.CardJson` | ios/BraintreeSdk.swift:46-59 | exactly the eight `CardResponse` keys; `cardNetwork` is the network's name and each other key holds the field of that name |
| `IosBridge.ConvertPaymentMethodUsage` | ios/BraintreeSdk.swift:115-123 | total: `.multiUse` iff "multiUse", `.singleUse` iff "singleUse", otherwise `.unspecified` |
| `IosBridge.CompactMap` | ios/BraintreeSdk.swift:196-206 | the output holds exactly the defined images and keeps the length when every element converts |
| `IosBridge.CompactMapSingleton` | ios/BraintreeSdk.swift:205 | one element contributes its image if defined, else nothing |
| `IosBridge.CompactMapAppend` | ios/BraintreeSdk.swift:205 | the map distributes over concatenation, so with the singleton case the output is the defined images in input order, one per element |
| `IosBridge.ConvertLineItems` | ios/BraintreeSdk.swift:160-170 | succeeds iff every element is a string dictionary with a label and a parsable amount; keeps length, order, labels and amounts; otherwise fails for the whole list |
| `IosBridge.BuildPaymentRequest` | ios/BraintreeSdk.swift:196-211 | country "US", currency "USD", 3-D Secure, the caller's merchant and items; contact fields and networks replaced only when supplied |
| `IosBridge.GuardedWhenUninitialised` | ios/BraintreeSdk.swift:79-182 | with no client, `getCardNonce`, `isVenmoAvailable`, `authorizeVenmo` and `authorizeApplePay` only reject with "Braintree client is not initialized." |
| `IosBridge.RefusedTokenResolvesSetup` | ios/BraintreeSdk.swift:72-75 | a refused token still resolves `setup` with nil, leaves no client, and every guarded call after it rejects as uninitialised |
| `IosBridge.IsApplePayAvailableUnguarded` | ios/BraintreeSdk.swift:154-158 | `isApplePayAvailable` resolves with PassKit's answer whether or not a client exists |
| `IosBridge.InvalidLineItemsRejectFirst` | ios/BraintreeSdk.swift:179-189 | invalid items reject with "Invalid Apple Pay line items" and change nothing else: no Apple Pay client, slot untouched |
| `IosBridge.SlotWrittenOnlyWithSheet` | ios/BraintreeSdk.swift:212-219 | the slot changes only when the sheet's view controller is created, and then holds that call's promise |
| `IosBridge.SheetRequestShape` | ios/BraintreeSdk.swift:196-216 | a created sheet carries US/USD/3DS, the merchant id and the converted items |
| `IosBridge.DelegateSettlesExactlyOnce` | ios/BraintreeSdk.swift:233-249 | with a pending promise, one callback resolves it with `{nonce}` or rejects it, exactly one of the two, then completes with the matching status; a rejection carries the error description; the slot stays set |
| `IosBridge.DelegateWithoutPendingTouchesNoPromise` | ios/BraintreeSdk.swift:233-237 | with no pending promise the callback settles nothing; it completes with failure when an Apple Pay client exists, and does nothing at all otherwise |
| `IosBridge.CountSettles` | ios/BraintreeSdk.swift:74-249 | counts the resolve and reject calls on one promise; zero exactly when none touches it |
| `IosBridge.MethodSettlesOwnPromiseOnce` | ios/BraintreeSdk.swift:72-221 | each bridged method settles only its own promise, exactly once, except an `authorizeApplePay` that created a sheet, which settles none |
| `IosBridge.MethodAddsOneSettlementOrSheet` | ios/BraintreeSdk.swift:72-221 | each bridged method appends its own settlement, possibly after one SDK request, or, for `authorizeApplePay`, only a created sheet |
| `IosBridge.CallbackSettlesPendingOnce` | ios/BraintreeSdk.swift:233-249 | one callback with a pending promise adds exactly one settlement of it and keeps the slot |
| `IosBridge.RepeatedCallbacksSettleRepeatedly` | ios/BraintreeSdk.swift:212-248 | because the slot is never cleared, `n` callbacks settle the same promise `n` times |
| `IosBridge.SlotNeverCleared` | ios/BraintreeSdk.swift:214 | once set, the slot stays set through any run of operations |
| `IosBridge.ApplySettlesOwnOrPending` | ios/BraintreeSdk.swift:233-249 | one entry settles only its own promise or the one in the slot |
| `IosBridge.OverwrittenPromiseNeverSettles` | ios/BraintreeSdk.swift:214 | a promise no longer in the slot is never settled by any later run that does not carry it |
| `IosBridge.SecondSheetOverwrites` | ios/BraintreeSdk.swift:214 | a second created sheet replaces the first caller's promise in the slot |
| `IosBridge.BraintreeSdk.constructor` | ios/BraintreeSdk.swift:66-69 | no client, no Apple Pay client, empty slot |
| `IosBridge.BraintreeSdk.Setup` | ios/BraintreeSdk.swift:72-75 | replaces the client with the token's client, or with nil when the token is refused, and resolves with nil either way |
| `IosBridge.BraintreeSdk.GetCardNonce` | ios/BraintreeSdk.swift:78-102 | guard; tokenizes the card with cvv only when given; resolves the card JSON or rejects with the error description |
| `IosBridge.BraintreeSdk.IsVenmoAvailable` | ios/BraintreeSdk.swift:105-113 | guard; resolves with the app-switch availability |
| `IosBridge.BraintreeSdk.AuthorizeVenmo` | ios/BraintreeSdk.swift:126-151 | guard; usage set only when given; resolves `{venmoUsername, nonce}` or rejects |
| `IosBridge.BraintreeSdk.IsApplePayAvailable` | ios/BraintreeSdk.swift:154-158 | resolves with `canMakePayments` over the converted networks, or over none when omitted |
| `IosBridge.BraintreeSdk.AuthorizeApplePay` | ios/BraintreeSdk.swift:173-221 | client check, then items, then the SDK request; the slot is written only when a sheet is made, else "Payment Request is invalid" |
| `IosBridge.BraintreeSdk.DidAuthorizePayment` | ios/BraintreeSdk.swift:230-250 | reads the slot without clearing it; settles it and completes the sheet |
| `AndroidModule.VenmoUsage` | android/src/main/java/com/reactnativebraintreesdk/BraintreeSdkModule.java:94 | SINGLE_USE for every usage other than "multiUse", null included; MULTI_USE only for the identical literal |
| `AndroidModule.CardMap` | android/src/main/java/com/reactnativebraintreesdk/BraintreeSdkModule.java:161-171 | exactly the eight `CardResponse` keys, each holding the nonce's field |
| `AndroidModule.ApplyKeepsValid` | android/src/main/java/com/reactnativebraintreesdk/BraintreeSdkModule.java:139-147 | the sub-clients exist exactly when the client does, built from it |
| `AndroidModule.SlotWriters` | android/src/main/java/com/reactnativebraintreesdk/BraintreeSdkModule.java:91-136 | only `authorizeVenmo` writes `venmoPromise` and only `authorizeGooglePay` writes `googlePayPromise` |
| `AndroidModule.SlotsNeverReset` | android/src/main/java/com/reactnativebraintreesdk/BraintreeSdkModule.java:35-36 | neither slot is ever reset to null |
| `AndroidModule.AuthorizeVenmoBeforeSetup` | android/src/main/java/com/reactnativebraintreesdk/BraintreeSdkModule.java:91-98 | without `setup` the promise is stored, then the null Venmo client fails the call |
| `AndroidModule.AuthorizeVenmoRequest` | android/src/main/java/com/reactnativebraintreesdk/BraintreeSdkModule.java:91-103 | stores the promise first; the request has the vault flag and SINGLE_USE unless "multiUse"; an immediate error rejects that promise with "Error" |
| `AndroidModule.AuthorizeGooglePayRequest` | android/src/main/java/com/reactnativebraintreesdk/BraintreeSdkModule.java:119-136 | stores the promise; the request has the given price, FINAL status, "USD" and the billing flag |
| `AndroidModule.GetCardNonceOutcome` | android/src/main/java/com/reactnativebraintreesdk/BraintreeSdkModule.java:150-176 | cvv set only when given; success resolves the eight-key map; failure rejects with "Error" and the message |
| `AndroidModule.BranchSelection` | android/src/main/java/com/reactnativebraintreesdk/BraintreeSdkModule.java:40-75 | the Venmo branch runs iff `venmoPromise` is set and the Google Pay branch iff `googlePayPromise` is; both may run on one event |
| `AndroidModule.CollectorErrorIgnored` | android/src/main/java/com/reactnativebraintreesdk/BraintreeSdkModule.java:48-53 | the data collector's error never changes the outcome |
| `AndroidModule.VenmoBranchOutcome` | android/src/main/java/com/reactnativebraintreesdk/BraintreeSdkModule.java:42-59 | an error rejects `venmoPromise` with "VenmoError"; otherwise it is resolved with nonce and username |
| `AndroidModule.GooglePaySuccessResolvesVenmoPromise` | android/src/main/java/com/reactnativebraintreesdk/BraintreeSdkModule.java:64-73 | a Google Pay nonce resolves `venmoPromise`; without one stored, the call fails on the null slot |
| `AndroidModule.GooglePayErrorRejectsGooglePayPromise` | android/src/main/java/com/reactnativebraintreesdk/BraintreeSdkModule.java:64-68 | a Google Pay error rejects `googlePayPromise` with "Error" |
| `AndroidModule.BothBranchesResolveVenmoPromise` | android/src/main/java/com/reactnativebraintreesdk/BraintreeSdkModule.java:40-75 | with both slots set and both flows successful, `venmoPromise` is resolved twice and `googlePayPromise` never |
| `AndroidModule.BraintreeSdkModule.constructor` | android/src/main/java/com/reactnativebraintreesdk/BraintreeSdkModule.java:30-36 | all clients and both slots null |
| `AndroidModule.BraintreeSdkModule.Setup` | android/src/main/java/com/reactnativebraintreesdk/BraintreeSdkModule.java:139-147 | assigns the client and the three sub-clients, then resolves true |
| `AndroidModule.BraintreeSdkModule.AuthorizeVenmo` | android/src/main/java/com/reactnativebraintreesdk/BraintreeSdkModule.java:91-103 | as `AuthorizeVenmoStep`: slot first, then the SDK call |
| `AndroidModule.BraintreeSdkModule.IsGooglePayAvailable` | android/src/main/java/com/reactnativebraintreesdk/BraintreeSdkModule.java:106-116 | passes `isReadyToPay` through, or rejects with "Error" |
| `AndroidModule.BraintreeSdkModule.AuthorizeGooglePay` | android/src/main/java/com/reactnativebraintreesdk/BraintreeSdkModule.java:119-136 | as `AuthorizeGooglePayStep`: request, slot, then the SDK call |
| `AndroidModule.BraintreeSdkModule.GetCardNonce` | android/src/main/java/com/reactnativebraintreesdk/BraintreeSdkModule.java:150-176 | as `GetCardNonceStep` |
| `AndroidModule.BraintreeSdkModule.OnActivityResult` | android/src/main/java/com/reactnativebraintreesdk/BraintreeSdkModule.java:40-75 | as `OnActivityResultStep`: the Venmo branch, then the Google Pay branch |
| `Boundary.FacadeLineItemsAcceptedByIos` | ios/BraintreeSdk.swift:160-170 | the items the façade forwards always pass iOS validation, with the caller's labels and amounts, in order (given that `Decimal(string:)` reads two-decimal numerals) |
| `Boundary.GooglePayPriceReachesAndroid` | android/src/main/java/com/reactnativebraintreesdk/BraintreeSdkModule.java:119-127 | the forwarded price reaches the Google Pay request and reads back as the caller's; billing defaults to true |
| `Boundary.VenmoUsageReachesIos` | ios/BraintreeSdk.swift:136-138 | "multiUse" and "singleUse" reach the iOS request as the matching usage; an omitted usage leaves the SDK default |
| `Boundary.CardResponsesAgreeOnKeys` | src/index.tsx:117-126 | both native modules resolve a card with exactly the `CardResponse` keys |

## Left out

- Floating point. Amounts are whole numbers of cents, so `toFixed(2)` is exact. Its rounding of fractional cents and its exponent notation at 1e21 and above are not modelled.
- Foundation's `Decimal(string:)`, the `PKPaymentNetwork` and `PKContactField` constructors, `canMakePayments(usingNetworks:)`, and the failable `PKPaymentAuthorizationViewController` initialiser are uninterpreted functions supplied by the caller (the `Host` datatype).
- SDK internals are outcomes supplied by the caller: card, Venmo and Apple Pay tokenization, `isiOSAppAvailableForAppSwitch`, `paymentRequest`, `requestPayment`, `isReadyToPay` and device-data collection. The `PKPayment` the delegate receives is not modelled.
- Asynchrony. Completion blocks and listeners run at once, in the order the source writes them. Each SDK's `[weak self]` is assumed to be still alive.
- React Native settles a promise at most once. The log records every resolve and reject call, not the settlement.
- Java compares `paymentMethodUsage == "multiUse"` by reference. Whether the argument is the literal's own object is a parameter (`sameReference`).
- A Java `NullPointerException` ends the whole operation in the model. That includes one raised inside an SDK callback, which assumes the SDK runs the callback synchronously.
- Android `getCardNonce` passes a possibly null client to `new CardClient(...)`. What the SDK then does is part of the tokenization outcome.
- Presenting and dismissing the payment sheet (ios/BraintreeSdk.swift:215-216, 227) is not modelled, and neither are the debug prints (ios/BraintreeSdk.swift:198-199). The event `SheetCreated` records that the sheet's view controller was created and the slot written. A nil root view controller would leave the sheet unshown and the promise pending.
- Whether `BTAPIClient(authorization:)` accepts a token is a parameter of `setup` (`tokenAccepted`).
- The linking-error proxies (src/index.tsx:3-18, src/nativeModule.tsx) are not modelled. The native module is an abstract callee.
- The Android `getName`, the listener registration in the constructor, and the example app are not part of this model.
