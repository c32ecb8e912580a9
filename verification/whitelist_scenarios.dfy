/**
 * The `whitelist validation` scenarios, each stated as a method over the model
 * whose ensures are proved: a fresh metadata storage, the class's decorators
 * applied in declaration order, an instance with the properties the scenario
 * assigns, one `validate` call.
 */
module WhitelistScenarios {
  import opened Wrappers
  import opened Values
  import opened Metadata
  import opened AllowIfDecorator
  import opened IsArrayDecorator
  import opened WhitelistValidation
  import opened WhitelistProperties

  const MyClass: Prototype := Prototype(ClassRef("MyClass"))
  const MyPayload: Prototype := Prototype(ClassRef("MyPayload"))

  /** `{ whitelist: true }` */
  const StripOptions: ValidatorOptions := ValidatorOptions(true, false, None)
  /** `{ whitelist: true, forbidNonWhitelisted: true }` */
  const ForbidOptions: ValidatorOptions := ValidatorOptions(true, true, None)

  // Records of the decorators the scenarios use besides `AllowIf`. Their
  // sources are not part of this model; only their kind matters to the pass.

  function IsDefinedMetadata(proto: Prototype, propertyName: string): ValidationMetadata {
    ValidationMetadata(IsDefined, proto.ctor, propertyName, [], None)
  }

  function MinMetadata(proto: Prototype, propertyName: string, min: int): ValidationMetadata {
    ValidationMetadata(CustomValidation, proto.ctor, propertyName, [Literal(Num(min))], None)
  }

  function IsOptionalMetadata(proto: Prototype, propertyName: string): ValidationMetadata {
    ValidationMetadata(ConditionalValidation, proto.ctor, propertyName, [], None)
  }

  /** `@Allow()`: a `Whitelist` record without a condition. */
  function AllowMetadata(proto: Prototype, propertyName: string): ValidationMetadata {
    ValidationMetadata(Whitelist, proto.ctor, propertyName, [], None)
  }

  /** `@IsDefined() title`, `@Min(0) views`; `unallowedProperty` is stripped, the rest untouched. */
  method StripsUndeclaredProperty() returns (errors: seq<ValidationError>, after: Props)
    ensures errors == []
    ensures after == map["title" := Str("hello"), "views" := Num(56)]
  {
    var storage := new MetadataStorage();
    storage.AddValidationMetadata(IsDefinedMetadata(MyClass, "title"));
    storage.AddValidationMetadata(MinMetadata(MyClass, "views", 0));
    var model := new Instance(MyClass.ctor,
      map["title" := Str("hello"), "views" := Num(56), "unallowedProperty" := Num(42)]);
    ghost var ms := storage.validationMetadatas;
    ghost var before := model.props;
    ForTargetOfOneClass(ms, MyClass.ctor);
    assert IsAllowed(ms, before, "title") by { assert Allows(ms[0], before); }
    assert IsAllowed(ms, before, "views") by { assert Allows(ms[1], before); }
    assert NotAllowed(ms, before) == {"unallowedProperty"};
    errors := Validate(model, storage, StripOptions);
    after := model.props;
  }

  /** `@Allow() views`: kept, while the undeclared sibling is stripped. */
  method AllowMarkerKeepsProperty() returns (errors: seq<ValidationError>, after: Props)
    ensures errors == []
    ensures after == map["views" := Num(420)]
  {
    var storage := new MetadataStorage();
    storage.AddValidationMetadata(AllowMetadata(MyClass, "views"));
    var model := new Instance(MyClass.ctor,
      map["views" := Num(420), "unallowedProperty" := Str("non-whitelisted")]);
    ghost var ms := storage.validationMetadatas;
    ghost var before := model.props;
    ForTargetOfOneClass(ms, MyClass.ctor);
    assert IsAllowed(ms, before, "views") by { assert Allows(ms[0], before); }
    assert NotAllowed(ms, before) == {"unallowedProperty"};
    errors := Validate(model, storage, StripOptions);
    after := model.props;
  }

  /** `@AllowIf(o => false) views`: stripped along with the undeclared sibling, silently. */
  method FalseConditionStrips() returns (errors: seq<ValidationError>, after: Props)
    ensures errors == []
    ensures after == map[]
  {
    var storage := new MetadataStorage();
    AllowIf(storage, o => false, None, MyClass, "views");
    var model := new Instance(MyClass.ctor,
      map["views" := Num(420), "unallowedProperty" := Str("non-whitelisted")]);
    ghost var ms := storage.validationMetadatas;
    ghost var before := model.props;
    ForTargetOfOneClass(ms, MyClass.ctor);
    ConditionDecides(ms, before, "views", o => false, 0);
    assert NotAllowed(ms, before) == {"views", "unallowedProperty"};
    errors := Validate(model, storage, StripOptions);
    after := model.props;
  }

  /** `@AllowIf(o => true) views`: kept with its value. */
  method TrueConditionKeeps() returns (errors: seq<ValidationError>, after: Props)
    ensures errors == []
    ensures after == map["views" := Num(420)]
  {
    var storage := new MetadataStorage();
    AllowIf(storage, o => true, None, MyClass, "views");
    var model := new Instance(MyClass.ctor,
      map["views" := Num(420), "unallowedProperty" := Str("non-whitelisted")]);
    ghost var ms := storage.validationMetadatas;
    ghost var before := model.props;
    ForTargetOfOneClass(ms, MyClass.ctor);
    ConditionDecides(ms, before, "views", o => true, 0);
    assert NotAllowed(ms, before) == {"unallowedProperty"};
    errors := Validate(model, storage, StripOptions);
    after := model.props;
  }

  /** Forbidding, `@AllowIf(o => true) conditionalDecorated`: no error, value untouched. */
  method ForbidTrueConditionNoError() returns (errors: seq<ValidationError>, after: Props)
    ensures errors == []
    ensures after == map["conditionalDecorated" := Str("conditional-whitelisted")]
  {
    var storage := new MetadataStorage();
    storage.AddValidationMetadata(IsOptionalMetadata(MyPayload, "propertyToRegisterClass"));
    AllowIf(storage, o => true, None, MyPayload, "conditionalDecorated");
    var instance := new Instance(MyPayload.ctor,
      map["conditionalDecorated" := Str("conditional-whitelisted")]);
    ghost var ms := storage.validationMetadatas;
    ghost var before := instance.props;
    ForTargetOfOneClass(ms, MyPayload.ctor);
    assert IsAllowed(ms, before, "conditionalDecorated") by { assert Allows(ms[1], before); }
    assert NotAllowed(ms, before) == {};
    errors := Validate(instance, storage, ForbidOptions);
    after := instance.props;
  }

  /** Forbidding, `@AllowIf(o => false) nonDecorated`, assigned: exactly one `Whitelist` error for it. */
  method ForbidFalseConditionOneError() returns (instance: Instance, errors: seq<ValidationError>)
    ensures |errors| == 1
    ensures errors[0].target == instance && errors[0].property == Some("nonDecorated")
    ensures TypeName(Whitelist) in errors[0].constraints
    ensures instance.props == map["nonDecorated" := Str("non-whitelisted")]
  {
    var storage := new MetadataStorage();
    storage.AddValidationMetadata(IsOptionalMetadata(MyPayload, "propertyToRegisterClass"));
    AllowIf(storage, o => false, None, MyPayload, "nonDecorated");
    instance := new Instance(MyPayload.ctor, map["nonDecorated" := Str("non-whitelisted")]);
    ghost var ms := storage.validationMetadatas;
    ghost var before := instance.props;
    ForTargetOfOneClass(ms, MyPayload.ctor);
    ConditionDecides(ms, before, "nonDecorated", o => false, 1);
    assert NotAllowed(ms, before) == {"nonDecorated"};
    errors := Validate(instance, storage, ForbidOptions);
    assert errors[0] == WhitelistError(instance, "nonDecorated", Str("non-whitelisted"));
  }

  /** Forbidding, `@AllowIf(o => false) conditionalDecorated`, never assigned: no error. */
  method ForbidUnassignedPropertyNoError() returns (errors: seq<ValidationError>, after: Props)
    ensures errors == []
    ensures "conditionalDecorated" !in after
  {
    var storage := new MetadataStorage();
    storage.AddValidationMetadata(IsOptionalMetadata(MyPayload, "propertyToRegisterClass"));
    AllowIf(storage, o => false, None, MyPayload, "conditionalDecorated");
    var instance := new Instance(MyPayload.ctor, map[]);
    ForTargetOfOneClass(storage.validationMetadatas, MyPayload.ctor);
    errors := Validate(instance, storage, ForbidOptions);
    after := instance.props;
  }

  /** Forbidding, undeclared `nonDecorated`: exactly one `Whitelist` error for it. */
  method ForbidUndeclaredOneError() returns (instance: Instance, errors: seq<ValidationError>)
    ensures |errors| == 1
    ensures errors[0].target == instance && errors[0].property == Some("nonDecorated")
    ensures TypeName(Whitelist) in errors[0].constraints
    ensures instance.props == map["nonDecorated" := Str("non-whitelisted")]
  {
    var storage := new MetadataStorage();
    storage.AddValidationMetadata(IsOptionalMetadata(MyPayload, "propertyToRegisterClass"));
    instance := new Instance(MyPayload.ctor, map["nonDecorated" := Str("non-whitelisted")]);
    ghost var ms := storage.validationMetadatas;
    ghost var before := instance.props;
    ForTargetOfOneClass(ms, MyPayload.ctor);
    UndeclaredIsNotAllowed(ms, before, "nonDecorated");
    assert NotAllowed(ms, before) == {"nonDecorated"};
    errors := Validate(instance, storage, ForbidOptions);
    assert errors[0] == WhitelistError(instance, "nonDecorated", Str("non-whitelisted"));
  }

  /**
   * A class with no registered metadata: the unknown-value check, on by
   * default, reports the instance and the whitelist pass never runs, so
   * nothing is stripped.
   */
  method UnknownValueCheckComesFirst() returns (instance: Instance, errors: seq<ValidationError>)
    ensures errors == [UnknownValueError(instance)]
    ensures instance.props == map["conditionalDecorated" := Str("conditional-whitelisted")]
  {
    var storage := new MetadataStorage();
    instance := new Instance(MyPayload.ctor, map["conditionalDecorated" := Str("conditional-whitelisted")]);
    errors := Validate(instance, storage, ForbidOptions);
  }

  /** A property whose only declaration is an `AllowIf` stays exactly when its condition holds. */
  lemma {:induction false} AllowIfAloneDecides(
    c: Props -> bool, validationOptions: Option<ValidationOptions>, proto: Prototype, p: string, props: Props)
    requires p in props
    ensures p in NotAllowed([AllowIfMetadata(c, validationOptions, proto, p)], props) <==> !c(props)
  {
    ConditionDecides([AllowIfMetadata(c, validationOptions, proto, p)], props, p, c, 0);
  }

  /**
   * The kind `AllowIf` stores in its record is, by name, the constraint key of
   * the error a forbidden property produces.
   */
  lemma AllowIfKindIsWhitelistErrorKey(
    c: Props -> bool, validationOptions: Option<ValidationOptions>, proto: Prototype, p: string,
    obj: Instance, v: Value)
    ensures WhitelistError(obj, p, v).constraints.Keys
         == {TypeName(AllowIfMetadata(c, validationOptions, proto, p).kind)}
  {
  }

  /**
   * An `@IsArray` declaration keeps its property, whatever its value, when no
   * declaration of that property carries an allow-condition.
   */
  lemma {:induction false} IsArrayKeepsProperty(
    validationOptions: Option<ValidationOptions>, ms: seq<ValidationMetadata>, proto: Prototype, p: string, props: Props)
    requires ValidateByMetadata(IsArrayConstraint(validationOptions), proto, p) in ms
    requires forall j | 0 <= j < |ms| && ms[j].propertyName == p :: ConditionOf(ms[j]) == None
    ensures p !in NotAllowed(ms, props)
  {
    var i :| 0 <= i < |ms| && ms[i] == ValidateByMetadata(IsArrayConstraint(validationOptions), proto, p);
    UnconditionalDeclarationAllows(ms, props, i);
  }

  /**
   * The condition is re-evaluated against the object of each call: the same
   * shape keeps `views` when `flag` is true and strips it when it is false.
   */
  lemma ConditionEvaluatedPerCall()
    ensures var ms := [AllowMetadata(MyClass, "flag"),
                       AllowIfMetadata(o => "flag" in o && o["flag"] == Bool(true), None, MyClass, "views")];
      && "views" in NotAllowed(ms, map["views" := Num(1), "flag" := Bool(false)])
      && "views" !in NotAllowed(ms, map["views" := Num(1), "flag" := Bool(true)])
  {
    var c := (o: Props) => "flag" in o && o["flag"] == Bool(true);
    var ms := [AllowMetadata(MyClass, "flag"), AllowIfMetadata(c, None, MyClass, "views")];
    ConditionDecides(ms, map["views" := Num(1), "flag" := Bool(false)], "views", c, 1);
    ConditionDecides(ms, map["views" := Num(1), "flag" := Bool(true)], "views", c, 1);
  }

  /**
   * Without the agreement `StripIdempotent` asks for, a second strip can remove
   * more: `views` is allowed only while `unallowedProperty` is present, and the
   * first pass deletes that.
   */
  lemma StripNotIdempotentInGeneral()
    ensures var ms := [AllowIfMetadata(o => "unallowedProperty" in o, None, MyClass, "views")];
            var props := map["views" := Num(420), "unallowedProperty" := Num(42)];
      && Stripped(ms, props) == map["views" := Num(420)]
      && Stripped(ms, Stripped(ms, props)) == map[]
  {
    var c := (o: Props) => "unallowedProperty" in o;
    var ms := [AllowIfMetadata(c, None, MyClass, "views")];
    var props := map["views" := Num(420), "unallowedProperty" := Num(42)];
    ConditionDecides(ms, props, "views", c, 0);
    assert NotAllowed(ms, props) == {"unallowedProperty"};
    var once := Stripped(ms, props);
    assert once == map["views" := Num(420)];
    ConditionDecides(ms, once, "views", c, 0);
    assert NotAllowed(ms, once) == {"views"};
  }
}
