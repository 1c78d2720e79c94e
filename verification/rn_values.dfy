/** Values that cross the React Native bridge between the JavaScript layer and the native modules. */
module RnValues {
  import opened Wrappers

  /** Identifies the JavaScript promise whose resolve/reject blocks a native method receives. */
  type PromiseId = nat

  /** An untyped JavaScript value as a native method receives it (`[Any]`, `ReadableMap`). */
  datatype Json =
    | JNull
    | JBool(b: bool)
    | JNumber(n: int)
    | JString(s: string)
    | JArray(elems: seq<Json>)
    | JObject(fields: map<string, Json>)

  /** A value a native method resolves its promise with. */
  datatype Value =
    | VNull
    | VBool(b: bool)
    | VRecord(fields: map<string, Option<string>>)

  /** The card fields the JavaScript `CardDetails` type carries and the native card objects hold. */
  datatype CardDetails = CardDetails(
    cardNumber: string,
    expirationMonth: string,
    expirationYear: string,
    cvv: Option<string>)

  /** The pair an SDK completion block or listener receives: a result and an error, either possibly absent. */
  datatype SdkReply<+T> = SdkReply(result: Option<T>, error: Option<string>)

  /** The field names of the JavaScript `CardResponse` type. */
  const CardResponseKeys: set<string> :=
    {"cardNetwork", "expirationMonth", "expirationYear", "cardholderName", "lastTwo", "lastFour", "bin", "nonce"}
}
