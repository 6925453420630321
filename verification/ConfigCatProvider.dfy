/**
 * The ConfigCat OpenFeature provider: it asks the ConfigCat client for a
 * flag's evaluation details and translates them into OpenFeature
 * resolution details, one resolver per flag type.
 */
module ConfigCatProvider {
  import opened Wrappers
  import opened PhpValues
  import opened PhpStrings
  import opened OpenFeature
  import opened ConfigCatClient

  /** The part of the client's error message that marks a flag key missing from the config. */
  const KeyNotFoundFragment: string := "key was not found in config JSON"

  /** `json_decode($text, true)` as the PHP runtime supplies it. */
  type JsonDecoder = string -> Value

  /**
   * A constructed provider: the client it created once in its constructor,
   * together with the runtime's JSON decoder that object flags go through.
   */
  datatype Provider = Provider(client: Client, jsonDecode: JsonDecoder)

  // ---------------------------------------------------------------------
  // Specification

  /**
   * The raw value type each requested flag type accepts from the client:
   * booleans, strings, integers and floats their own type; objects a
   * string holding JSON.
   */
  predicate Carries(t: FlagValueType, v: Value) {
    match t
    case Boolean => v.BoolVal?
    case String => v.StrVal?
    case Integer => v.IntVal?
    case Float => v.FloatVal?
    case Object => v.StrVal?
  }

  /** The error code a client error message deserves. */
  ghost function ExpectedCode(message: string): (code: ErrorCode) {
    if Occurs(message, KeyNotFoundFragment) then FlagNotFound else General
  }

  /**
   * What resolving a flag of type `t` with caller default `dflt` must give
   * when the client answered `d`:
   *  - a raw value of the wrong type gives the default and TYPE_MISMATCH
   *    without a message, whatever error the client reported;
   *  - otherwise a client error gives the default, no variant, and the
   *    classified error carrying the client's exact message;
   *  - otherwise the raw value (decoded, for objects), the variation id as
   *    variant, and no error.
   */
  ghost predicate ResolvesAs(t: FlagValueType, dflt: Value, d: EvaluationDetails, decode: JsonDecoder, r: Resolution) {
    && (!Carries(t, d.value) ==>
          r == Resolution(dflt, None, Some(ResolutionError(TypeMismatch, None))))
    && (Carries(t, d.value) && d.errorMessage.Some? ==>
          r == Resolution(dflt, None, Some(ResolutionError(ExpectedCode(d.errorMessage.value), d.errorMessage))))
    && (Carries(t, d.value) && d.errorMessage.None? ==>
          && r.error == None
          && r.variant == d.variationId
          && r.value == (if t == Object then decode(d.value.s) else d.value))
  }

  /** The specification leaves at most one outcome for every answer of the client. */
  lemma ResolvesAsIsDeterministic(t: FlagValueType, dflt: Value, d: EvaluationDetails, decode: JsonDecoder, r1: Resolution, r2: Resolution)
    requires ResolvesAs(t, dflt, d, decode, r1) && ResolvesAs(t, dflt, d, decode, r2)
    ensures r1 == r2
  {
  }

  /**
   * The specification leaves at least one outcome for every answer of the
   * client: the gate's outcome when the value has the wrong type, and the
   * translated one otherwise.
   */
  lemma ResolvesAsIsTotal(t: FlagValueType, dflt: Value, d: EvaluationDetails, decode: JsonDecoder)
    ensures exists r :: ResolvesAs(t, dflt, d, decode, r)
  {
    if Carries(t, d.value) {
      var r := ProduceResolutionDetails(t, d.value, dflt, d, decode);
      assert ResolvesAs(t, dflt, d, decode, r);
    } else {
      assert ResolvesAs(t, dflt, d, decode, MismatchedType(dflt));
    }
  }

  /**
   * The resolution invariants: an error always comes with the default
   * value and no variant, and a variant is present exactly when the lookup
   * succeeded and the client reported a variation id, which it then equals.
   */
  lemma ResolutionInvariants(t: FlagValueType, dflt: Value, d: EvaluationDetails, decode: JsonDecoder, r: Resolution)
    requires ResolvesAs(t, dflt, d, decode, r)
    ensures r.error.Some? ==> r.value == dflt && r.variant == None
    ensures r.error.None? <==> Carries(t, d.value) && d.errorMessage.None?
    ensures r.variant.Some? <==> Carries(t, d.value) && d.errorMessage.None? && d.variationId.Some?
    ensures r.variant.Some? ==> r.variant == d.variationId
  {
  }

  // ---------------------------------------------------------------------
  // Translation

  /**
   * Error classification: FLAG_NOT_FOUND exactly when the message contains
   * the not-found fragment (case-sensitively), GENERAL otherwise.
   */
  function ClassifyError(message: string): (code: ErrorCode)
    ensures code == FlagNotFound <==> Occurs(message, KeyNotFoundFragment)
    ensures code == FlagNotFound || code == General
  {
    StrContainsIffOccurs(message, KeyNotFoundFragment);
    if StrContains(message, KeyNotFoundFragment) then FlagNotFound else General
  }

  /** The builder state of the type-mismatch path: the default and TYPE_MISMATCH without a message. */
  function MismatchedType(dflt: Value): (r: Resolution) {
    Resolution(dflt, None, Some(ResolutionError(TypeMismatch, None)))
  }

  /**
   * `extractObjectValue`: a string is decoded as JSON; anything else falls
   * back to the default with TYPE_MISMATCH.
   */
  function ExtractObjectValue(value: Value, dflt: Value, decode: JsonDecoder): (r: Resolution)
    ensures r.variant == None
    ensures value.StrVal? ==> r.error == None && r.value == decode(value.s)
    ensures !value.StrVal? ==> r.error == Some(ResolutionError(TypeMismatch, None)) && r.value == dflt
  {
    if value.StrVal? then Resolution(decode(value.s), None, None)
    else MismatchedType(dflt)
  }

  /**
   * `extractValueFromDetails` on a value that already passed the type
   * gate: the casts are identities, objects are decoded, and no error is
   * attached.
   */
  function ExtractValueFromDetails(flagType: FlagValueType, value: Value, dflt: Value, decode: JsonDecoder): (r: Resolution)
    requires Carries(flagType, value)
    ensures r.error == None && r.variant == None
    ensures r.value == (if flagType == Object then decode(value.s) else value)
  {
    match flagType
    case Boolean => Resolution(BoolVal(value.b), None, None)
    case Float => Resolution(FloatVal(value.f), None, None)
    case Integer => Resolution(IntVal(value.i), None, None)
    case Object => ExtractObjectValue(value, dflt, decode)
    case String => Resolution(value, None, None)
  }

  /**
   * `produceResolutionDetails`: a non-null client error message (the empty
   * string included) gives the default with the classified error; otherwise
   * the extracted value, with the variation id as variant when there is one.
   */
  function ProduceResolutionDetails(flagType: FlagValueType, value: Value, dflt: Value, details: EvaluationDetails, decode: JsonDecoder): (r: Resolution)
    requires Carries(flagType, value)
    ensures value == details.value ==> ResolvesAs(flagType, dflt, details, decode, r)
    ensures details.errorMessage.Some? ==>
              r == Resolution(dflt, None, Some(ResolutionError(ExpectedCode(details.errorMessage.value), details.errorMessage)))
    ensures details.errorMessage.None? ==>
              && r.error == None
              && r.variant == details.variationId
              && r.value == (if flagType == Object then decode(value.s) else value)
  {
    match details.errorMessage
    case Some(error) =>
      Resolution(dflt, None, Some(ResolutionError(ClassifyError(error), Some(error))))
    case None =>
      var result := ExtractValueFromDetails(flagType, value, dflt, decode);
      match details.variationId
      case Some(variant) => result.(variant := Some(variant))
      case None => result
  }

  /**
   * `contextToUser`: no context gives no user; otherwise a user whose
   * identifier is the targeting key (the empty string when it is missing),
   * with no email, no country, and the context's attributes as custom
   * attributes.
   */
  function ContextToUser(context: Option<EvaluationContext>): (user: Option<User>)
    ensures context.None? <==> user.None?
    ensures context.Some? ==>
              && user.value.email == None
              && user.value.country == None
              && user.value.custom == context.value.attributes
              && (context.value.targetingKey.Some? ==> user.value.identifier == context.value.targetingKey.value)
              && (context.value.targetingKey.None? ==> user.value.identifier == "")
  {
    match context
    case None => None
    case Some(c) => Some(User(c.targetingKey.GetOr(""), None, None, c.attributes))
  }

  /**
   * The only information `ContextToUser` loses: a missing targeting key
   * and an empty one give the same user.
   */
  lemma ContextToUserLosesOnlyMissingKey(c1: Option<EvaluationContext>, c2: Option<EvaluationContext>)
    requires ContextToUser(c1) == ContextToUser(c2)
    ensures c1 == c2 || (
              && c1.Some? && c2.Some?
              && c1.value.attributes == c2.value.attributes
              && c1.value.targetingKey in {None, Some("")}
              && c2.value.targetingKey in {None, Some("")})
  {
  }

  // ---------------------------------------------------------------------
  // Resolvers

  /** `resolveBooleanValue`: always a boolean, resolved as `ResolvesAs` demands. */
  function ResolveBooleanValue(p: Provider, flagKey: string, defaultValue: bool, context: Option<EvaluationContext>): (r: Resolution)
    ensures ResolvesAs(Boolean, BoolVal(defaultValue), p.client(flagKey, BoolVal(defaultValue), ContextToUser(context)), p.jsonDecode, r)
    ensures r.value.BoolVal?
  {
    var details := p.client(flagKey, BoolVal(defaultValue), ContextToUser(context));
    var value := details.value;
    if !value.BoolVal? then MismatchedType(BoolVal(defaultValue))
    else ProduceResolutionDetails(Boolean, value, BoolVal(defaultValue), details, p.jsonDecode)
  }

  /** `resolveStringValue`: always a string, resolved as `ResolvesAs` demands. */
  function ResolveStringValue(p: Provider, flagKey: string, defaultValue: string, context: Option<EvaluationContext>): (r: Resolution)
    ensures ResolvesAs(String, StrVal(defaultValue), p.client(flagKey, StrVal(defaultValue), ContextToUser(context)), p.jsonDecode, r)
    ensures r.value.StrVal?
  {
    var details := p.client(flagKey, StrVal(defaultValue), ContextToUser(context));
    var value := details.value;
    if !value.StrVal? then MismatchedType(StrVal(defaultValue))
    else ProduceResolutionDetails(String, value, StrVal(defaultValue), details, p.jsonDecode)
  }

  /** `resolveIntegerValue`: always an integer, resolved as `ResolvesAs` demands. */
  function ResolveIntegerValue(p: Provider, flagKey: string, defaultValue: int, context: Option<EvaluationContext>): (r: Resolution)
    ensures ResolvesAs(Integer, IntVal(defaultValue), p.client(flagKey, IntVal(defaultValue), ContextToUser(context)), p.jsonDecode, r)
    ensures r.value.IntVal?
  {
    var details := p.client(flagKey, IntVal(defaultValue), ContextToUser(context));
    var value := details.value;
    if !value.IntVal? then MismatchedType(IntVal(defaultValue))
    else ProduceResolutionDetails(Integer, value, IntVal(defaultValue), details, p.jsonDecode)
  }

  /** `resolveFloatValue`: always a float, resolved as `ResolvesAs` demands. */
  function ResolveFloatValue(p: Provider, flagKey: string, defaultValue: Double, context: Option<EvaluationContext>): (r: Resolution)
    ensures ResolvesAs(Float, FloatVal(defaultValue), p.client(flagKey, FloatVal(defaultValue), ContextToUser(context)), p.jsonDecode, r)
    ensures r.value.FloatVal?
  {
    var details := p.client(flagKey, FloatVal(defaultValue), ContextToUser(context));
    var value := details.value;
    if !value.FloatVal? then MismatchedType(FloatVal(defaultValue))
    else ProduceResolutionDetails(Float, value, FloatVal(defaultValue), details, p.jsonDecode)
  }

  /**
   * `resolveObjectValue`: the array default itself is forwarded to the
   * client; the result is that default or the decoding of the client's
   * JSON string, resolved as `ResolvesAs` demands.
   */
  function ResolveObjectValue(p: Provider, flagKey: string, defaultValue: seq<(ArrayKey, Value)>, context: Option<EvaluationContext>): (r: Resolution)
    ensures ResolvesAs(Object, ArrVal(defaultValue), p.client(flagKey, ArrVal(defaultValue), ContextToUser(context)), p.jsonDecode, r)
    ensures var d := p.client(flagKey, ArrVal(defaultValue), ContextToUser(context));
            r.value == ArrVal(defaultValue) || (d.value.StrVal? && r.value == p.jsonDecode(d.value.s))
  {
    var details := p.client(flagKey, ArrVal(defaultValue), ContextToUser(context));
    var value := details.value;
    if !value.StrVal? then MismatchedType(ArrVal(defaultValue))
    else ProduceResolutionDetails(Object, value, ArrVal(defaultValue), details, p.jsonDecode)
  }
}
