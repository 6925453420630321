/**
 * The parts of the ConfigCat SDK the provider talks to. The client itself
 * (configuration fetch, targeting, percentage rollout) is not part of this
 * model; it appears only as a function from a request to its evaluation
 * details.
 */
module ConfigCatClient {
  import opened Wrappers
  import opened PhpValues

  /** `ConfigCat\User`: identifier, email, country and custom attributes. */
  datatype User = User(identifier: string, email: Option<string>, country: Option<string>, custom: map<string, Value>)

  /**
   * The parts of `EvaluationDetails` the provider reads: the evaluated
   * value (`getValue`), the variation id (`getVariationId`) and the error
   * message (`getErrorMessage`, null when evaluation succeeded).
   */
  datatype EvaluationDetails = EvaluationDetails(value: Value, variationId: Option<string>, errorMessage: Option<string>)

  /** `getValueDetails($key, $defaultValue, $user)` of a given client instance. */
  type Client = (string, Value, Option<User>) -> EvaluationDetails
}
