/**
 * The `isArray` check and the `@IsArray` constraint built on it through
 * `ValidateBy`.
 */
module IsArrayDecorator {
  import opened Wrappers
  import opened Values
  import opened Metadata

  const IS_ARRAY: string := "isArray"

  /** The text the default message is built from, after the each-prefix. */
  const IS_ARRAY_MESSAGE: string := "$property must be an array"

  /** True exactly for array values: the ones tagged `[object Array]`. */
  function IsArray(value: Value): (r: bool)
    ensures r <==> value.Arr?
  {
    TypeTag(value) == "[object Array]"
  }

  /** The arguments a constraint's `validate` receives beside the value. */
  datatype ValidationArguments = ValidationArguments(
    value: Value,
    constraints: seq<Value>,
    targetName: string,
    obj: Props,
    property: string)

  /**
   * `buildMessage(impl, validationOptions)`: a message builder; `impl` maps the
   * each-prefix to the message text. How the prefix is chosen and how
   * `$property` is substituted is not part of this model.
   */
  datatype MessageBuilder = BuildMessage(impl: string -> string, validationOptions: Option<ValidationOptions>)

  datatype ConstraintValidator = ConstraintValidator(
    validate: (Value, ValidationArguments) -> bool,
    defaultMessage: MessageBuilder)

  /** The first argument of `ValidateBy`. */
  datatype ValidateByOptions = ValidateByOptions(name: string, validator: ConstraintValidator)

  /** A call `ValidateBy(options, validationOptions)`, whose registration is not modelled. */
  datatype ValidateByCall = ValidateBy(options: ValidateByOptions, validationOptions: Option<ValidationOptions>)

  /** `IsArray(validationOptions)`. */
  function IsArrayConstraint(validationOptions: Option<ValidationOptions>): (d: ValidateByCall)
    ensures d.options.name == IS_ARRAY
    ensures forall v, args :: d.options.validator.validate(v, args) <==> v.Arr?
    ensures forall prefix :: d.options.validator.defaultMessage.impl(prefix) == prefix + IS_ARRAY_MESSAGE
    ensures d.options.validator.defaultMessage.validationOptions == validationOptions
    ensures d.validationOptions == validationOptions
  {
    ValidateBy(
      ValidateByOptions(
        IS_ARRAY,
        ConstraintValidator(
          (value, args) => IsArray(value),
          BuildMessage(eachPrefix => eachPrefix + IS_ARRAY_MESSAGE, validationOptions))),
      validationOptions)
  }

  /**
   * The record a `ValidateBy` constraint is assumed to register: a custom
   * validation on the decorated property, carrying no allow-condition.
   */
  function ValidateByMetadata(d: ValidateByCall, proto: Prototype, propertyName: string): (r: ValidationMetadata)
    ensures ConditionOf(r) == None
    ensures r.target == proto.ctor && r.propertyName == propertyName
    ensures r.validationOptions == d.validationOptions
  {
    ValidationMetadata(CustomValidation, proto.ctor, propertyName, [], d.validationOptions)
  }
}
