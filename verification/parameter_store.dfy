/**
 * The parameter-store lookup the worker and the partner authorizer use to read the
 * partner token, and the checks both apply to what it returns.
 */
module ParameterStore {
  import opened Wrappers

  /** What the SDK call ends with: no result object, a result with an optional value, or an error. */
  datatype SdkResult = NoResult | Result(value: Option<string>) | SdkError(text: string)

  /**
   * What the lookup gives back: a string, `undefined` (no value), or the error object it
   * catches and returns, represented by its `toString()` text.
   */
  datatype SsmValue = NoValue | Text(s: string) | ErrorObject(text: string)

  /** The lookup: "No Data" without a result, the parameter's value, or the caught error itself. */
  function GetParameter(r: SdkResult): SsmValue {
    match r
    case NoResult => Text("No Data")
    case Result(v) => if v.Some? then Text(v.value) else NoValue
    case SdkError(e) => ErrorObject(e)
  }

  /** The sentinel values the handlers refuse as a token: "No Data", undefined, null and "". */
  predicate UnusableToken(t: SsmValue) {
    t == NoValue || t == Text("No Data") || t == Text("")
  }

  /** `token.toString()`. */
  function TokenString(t: SsmValue): string {
    match t
    case Text(s) => s
    case ErrorObject(e) => e
    case NoValue => ""
  }

  /** An environment variable is set to a non-empty value. */
  predicate EnvSet(v: Option<string>) {
    v.Some? && v.value != ""
  }

  /**
   * The sentinel checks let a token through exactly when the store returned a real value,
   * or when the lookup failed: a failed lookup returns the error object, which passes.
   */
  lemma UsableTokens(r: SdkResult)
    ensures !UnusableToken(GetParameter(r))
            <==> (r.Result? && r.value.Some? && r.value.value != "" && r.value.value != "No Data") || r.SdkError?
    ensures r.SdkError? ==> TokenString(GetParameter(r)) == r.text
  {
  }
}
