/**
 * Validation metadata: the records decorators register, and the storage they
 * are appended to.
 */
module Metadata {
  import opened Wrappers
  import opened Values

  /** A class, identified by its constructor. */
  datatype ClassRef = ClassRef(name: string)

  /** The prototype a property decorator receives; `ctor` is its `constructor`. */
  datatype Prototype = Prototype(ctor: ClassRef)

  /** The kinds of validation metadata (`ValidationTypes`). */
  datatype ValidationType =
    | CustomValidation
    | ConditionalValidation
    | Whitelist
    | IsDefined

  /**
   * The string value of each kind. A record stores its kind; an error uses the
   * same value as the key of the constraint it reports.
   */
  function TypeName(t: ValidationType): string {
    match t
    case CustomValidation => "customValidation"
    case ConditionalValidation => "conditionalValidation"
    case Whitelist => "whitelistValidation"
    case IsDefined => "isDefined"
  }

  /** Options a decorator is given (`ValidationOptions`). */
  datatype ValidationOptions = ValidationOptions(
    each: bool,
    message: Option<string>,
    groups: seq<string>,
    always: bool)

  /**
   * One element of a record's `constraints` list: either a condition over the
   * object (as `AllowIf` stores it) or a plain value (as `Min(0)` stores 0).
   */
  datatype ConstraintArg =
    | Condition(test: Props -> bool)
    | Literal(v: Value)

  /** A registered declaration (`ValidationMetadata`). */
  datatype ValidationMetadata = ValidationMetadata(
    kind: ValidationType,
    target: ClassRef,
    propertyName: string,
    constraints: seq<ConstraintArg>,
    validationOptions: Option<ValidationOptions>)

  /**
   * The allow-condition a record carries, if any: a `Whitelist` record whose
   * first constraint is a condition. An `@Allow` marker is a `Whitelist`
   * record without one.
   */
  function ConditionOf(m: ValidationMetadata): (c: Option<Props -> bool>)
    ensures c.Some? ==> m.kind == Whitelist && |m.constraints| > 0
  {
    if m.kind == Whitelist && |m.constraints| > 0 && m.constraints[0].Condition?
    then Some(m.constraints[0].test)
    else None
  }

  /** The records of `ms` registered for `target`, in registration order. */
  function ForTarget(ms: seq<ValidationMetadata>, target: ClassRef): (r: seq<ValidationMetadata>)
    ensures |r| <= |ms|
    ensures forall i | 0 <= i < |r| :: r[i].target == target
    ensures forall i | 0 <= i < |ms| && ms[i].target == target :: ms[i] in r
    ensures forall m | m in r :: m in ms
  {
    if ms == [] then []
    else if ms[0].target == target then [ms[0]] + ForTarget(ms[1..], target)
    else ForTarget(ms[1..], target)
  }

  /** A list registered for one class only is its own target list. */
  lemma {:induction false} ForTargetOfOneClass(ms: seq<ValidationMetadata>, target: ClassRef)
    requires forall i | 0 <= i < |ms| :: ms[i].target == target
    ensures ForTarget(ms, target) == ms
  {
    if ms != [] {
      ForTargetOfOneClass(ms[1..], target);
    }
  }

  /** The process-wide metadata storage, modelled as a list that is appended to. */
  class MetadataStorage {
    var validationMetadatas: seq<ValidationMetadata>

    constructor ()
      ensures validationMetadatas == []
    {
      validationMetadatas := [];
    }

    /** Registers one record after all earlier ones. */
    method AddValidationMetadata(m: ValidationMetadata)
      modifies this
      ensures validationMetadatas == old(validationMetadatas) + [m]
    {
      validationMetadatas := validationMetadatas + [m];
    }

    /** The records registered for one class. */
    function TargetValidationMetadatas(target: ClassRef): (r: seq<ValidationMetadata>)
      reads this
      ensures forall m | m in r :: m in validationMetadatas && m.target == target
      ensures forall i | 0 <= i < |validationMetadatas| && validationMetadatas[i].target == target ::
        validationMetadatas[i] in r
    {
      ForTarget(validationMetadatas, target)
    }
  }
}
