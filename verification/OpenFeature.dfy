/**
 * The OpenFeature framework types the provider consumes and produces:
 * the requested flag type, the evaluation context and the resolution
 * details with their error.
 */
module OpenFeature {
  import opened Wrappers
  import opened PhpValues

  /** `FlagValueType`: the type a caller asked a flag to resolve to. */
  datatype FlagValueType = Boolean | String | Integer | Float | Object

  /** The error codes this provider produces. */
  datatype ErrorCode = TypeMismatch | FlagNotFound | General

  /** `ResolutionError`: a code and an optional human-readable message. */
  datatype ResolutionError = ResolutionError(code: ErrorCode, message: Option<string>)

  /**
   * `ResolutionDetails` as `ResolutionDetailsBuilder::build` returns it:
   * the resolved value, the variant if one was attached, and the error if
   * one was attached.
   */
  datatype Resolution = Resolution(value: Value, variant: Option<string>, error: Option<ResolutionError>)

  /** `EvaluationContext`: an optional targeting key and the attribute map. */
  datatype EvaluationContext = EvaluationContext(targetingKey: Option<string>, attributes: map<string, Value>)
}
