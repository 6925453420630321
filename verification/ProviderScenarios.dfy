/**
 * The provider's documented scenarios, stated against any client that
 * answers the scenario's request the way the local test configuration does.
 */
module ProviderScenarios {
  import opened Wrappers
  import opened PhpValues
  import opened PhpStrings
  import opened OpenFeature
  import opened ConfigCatClient
  import opened ConfigCatProvider

  /**
   * The client's message for a key missing from the local test
   * configuration, written as the text before the not-found fragment, the
   * fragment, and the text after it.
   */
  const MissingKeyMessage: string :=
    MissingKeyPrefix + "key was not found in config JSON" + MissingKeySuffix

  const MissingKeyPrefix: string := "Failed to evaluate setting 'non-existing' (the "
  const MissingKeySuffix: string :=
    "). Returning the `defaultValue` parameter that you specified in your application: 'false'. "
    + "Available keys: ['disabledFeature', 'enabledFeature', 'intSetting', 'doubleSetting', 'stringSetting']."

  /** The context the tests use for targeting. */
  const MatchingContext: EvaluationContext := EvaluationContext(Some("example@matching.com"), map[])

  /** A boolean lookup of a missing key gives the default and FLAG_NOT_FOUND with the client's message. */
  lemma FlagKeyNotFound(p: Provider)
    requires p.client("non-existing", BoolVal(false), ContextToUser(Some(MatchingContext)))
             == EvaluationDetails(BoolVal(false), None, Some(MissingKeyMessage))
    ensures ResolveBooleanValue(p, "non-existing", false, Some(MatchingContext))
            == Resolution(BoolVal(false), None, Some(ResolutionError(FlagNotFound, Some(MissingKeyMessage))))
  {
    OccursBetween(MissingKeyPrefix, KeyNotFoundFragment, MissingKeySuffix);
  }

  /** A boolean lookup of a string-valued flag gives the default and TYPE_MISMATCH. */
  lemma FlagTypeMismatch(p: Provider)
    requires p.client("stringSetting", BoolVal(false), ContextToUser(Some(MatchingContext)))
             == EvaluationDetails(StrVal("test"), Some("v-string"), None)
    ensures ResolveBooleanValue(p, "stringSetting", false, Some(MatchingContext))
            == Resolution(BoolVal(false), None, Some(ResolutionError(TypeMismatch, None)))
  {
  }

  /**
   * An object lookup of a missing key: the client hands back the array
   * default together with its error, the type gate rejects it first, and
   * the client's message is dropped.
   */
  lemma ObjectMissingKeyIsTypeMismatch(p: Provider, flagKey: string, dflt: seq<(ArrayKey, Value)>, context: Option<EvaluationContext>, message: string)
    requires p.client(flagKey, ArrVal(dflt), ContextToUser(context)) == EvaluationDetails(ArrVal(dflt), None, Some(message))
    ensures ResolveObjectValue(p, flagKey, dflt, context) == Resolution(ArrVal(dflt), None, Some(ResolutionError(TypeMismatch, None)))
  {
  }

  /** An empty, but present, client error message still takes the error path, as GENERAL. */
  lemma EmptyErrorMessageIsGeneralError(p: Provider, flagKey: string, dflt: string, raw: string, variant: Option<string>)
    requires p.client(flagKey, StrVal(dflt), ContextToUser(None)) == EvaluationDetails(StrVal(raw), variant, Some(""))
    ensures ResolveStringValue(p, flagKey, dflt, None) == Resolution(StrVal(dflt), None, Some(ResolutionError(General, Some(""))))
  {
  }

  /** The classification matches the fragment case-sensitively. */
  lemma ClassificationIsCaseSensitive()
    ensures ClassifyError(KeyNotFoundFragment) == FlagNotFound
    ensures ClassifyError("Key was not found in config JSON") == General
  {
    assert OccursAt(KeyNotFoundFragment, KeyNotFoundFragment, 0);
    assert "Key was not found in config JSON"[0] != KeyNotFoundFragment[0];
  }

  /** Successful lookups return the client's value and variation id unchanged, for every scalar type. */
  lemma ScalarFlagsResolve(p: Provider)
    requires p.client("enabledFeature", BoolVal(false), None) == EvaluationDetails(BoolVal(true), Some("v-enabled"), None)
    requires p.client("stringSetting", StrVal(""), None) == EvaluationDetails(StrVal("test"), Some("v-string"), None)
    requires p.client("intSetting", IntVal(0), None) == EvaluationDetails(IntVal(5), Some("v-int"), None)
    requires p.client("doubleSetting", FloatVal(Double(0)), None)
             == EvaluationDetails(FloatVal(Double(0x3FF3_3333_3333_3333)), Some("v-double"), None)
    ensures ResolveBooleanValue(p, "enabledFeature", false, None) == Resolution(BoolVal(true), Some("v-enabled"), None)
    ensures ResolveStringValue(p, "stringSetting", "", None) == Resolution(StrVal("test"), Some("v-string"), None)
    ensures ResolveIntegerValue(p, "intSetting", 0, None) == Resolution(IntVal(5), Some("v-int"), None)
    ensures ResolveFloatValue(p, "doubleSetting", Double(0), None)
            == Resolution(FloatVal(Double(0x3FF3_3333_3333_3333)), Some("v-double"), None)
  {
  }

  /** A targeted lookup forwards the targeting key as the user identifier and returns the targeted value. */
  lemma ResolveWithTargeting(p: Provider)
    requires p.client("disabledFeature", BoolVal(false), Some(User("example@matching.com", None, None, map[])))
             == EvaluationDetails(BoolVal(true), Some("v-disabled-t"), None)
    ensures ResolveBooleanValue(p, "disabledFeature", false, Some(MatchingContext))
            == Resolution(BoolVal(true), Some("v-disabled-t"), None)
  {
  }
}
