/**
 * The whitelist pass of `validate`: every own property of the instance that no
 * declaration allows is either deleted in place (`whitelist`) or reported with
 * one `Whitelist` error (`whitelist` and `forbidNonWhitelisted`).
 */
module WhitelistValidation {
  import opened Wrappers
  import opened Values
  import opened Metadata

  /** An object under validation: its class and its own properties, updated in place. */
  class Instance {
    const cls: ClassRef
    var props: Props

    constructor (cls: ClassRef, props: Props)
      ensures this.cls == cls && this.props == props
    {
      this.cls := cls;
      this.props := props;
    }
  }

  /** A reported violation (`ValidationError`). */
  datatype ValidationError = ValidationError(
    target: Instance,
    property: Option<string>,
    value: Option<Value>,
    constraints: map<string, string>,
    children: seq<ValidationError>)

  /** Options of a `validate` call (`ValidatorOptions`); an unset `forbidUnknownValues` is `None`. */
  datatype ValidatorOptions = ValidatorOptions(
    whitelist: bool,
    forbidNonWhitelisted: bool,
    forbidUnknownValues: Option<bool>)

  /** The unknown-value check is on unless switched off explicitly. */
  predicate ForbidsUnknownValues(options: ValidatorOptions) {
    options.forbidUnknownValues != Some(false)
  }

  const UNKNOWN_VALUE: string := "unknownValue"

  /** The error for an instance whose class has no registered metadata at all. */
  function UnknownValueError(obj: Instance): (e: ValidationError)
    ensures e.target == obj && e.property == None && UNKNOWN_VALUE in e.constraints
  {
    ValidationError(obj, None, None,
      map[UNKNOWN_VALUE := "an unknown value was passed to the validate function"], [])
  }

  /** The error for a present property that is not allowed, when such properties are forbidden. */
  function WhitelistError(obj: Instance, property: string, value: Value): (e: ValidationError)
    ensures e.target == obj && e.property == Some(property) && e.value == Some(value)
    ensures e.constraints.Keys == {TypeName(Whitelist)} && e.children == []
  {
    ValidationError(obj, Some(property), Some(value),
      map[TypeName(Whitelist) := "property " + property + " should not exist"], [])
  }

  /**
   * Whether one declaration lets its property stay, judged against the object
   * `props`: an allow-condition decides; any other declaration (an ordinary
   * constraint or the `@Allow` marker) always does.
   */
  predicate Allows(m: ValidationMetadata, props: Props) {
    match ConditionOf(m)
    case Some(condition) => condition(props)
    case None => true
  }

  /** Some declaration of property `p` among the class's records `ms` allows it. */
  predicate IsAllowed(ms: seq<ValidationMetadata>, props: Props, p: string) {
    exists i :: 0 <= i < |ms| && ms[i].propertyName == p && Allows(ms[i], props)
  }

  /** The present properties that no declaration allows. */
  function NotAllowed(ms: seq<ValidationMetadata>, props: Props): (r: set<string>)
    ensures r <= props.Keys
  {
    set p | p in props && !IsAllowed(ms, props, p)
  }

  /** The object after the pass has deleted every property it does not allow. */
  function Stripped(ms: seq<ValidationMetadata>, props: Props): (r: Props)
    ensures r.Keys == props.Keys - NotAllowed(ms, props)
    ensures forall p | p in r :: r[p] == props[p]
  {
    map p | p in props && IsAllowed(ms, props, p) :: props[p]
  }

  predicate Distinct(s: seq<string>) {
    forall i, j :: 0 <= i < j < |s| ==> s[i] != s[j]
  }

  /**
   * The errors of a forbidding pass: one `WhitelistError` per property of
   * `notAllowed`, carrying its value in `props`, each reported once, in no
   * particular order.
   */
  ghost predicate ReportsExactly(errors: seq<ValidationError>, obj: Instance, notAllowed: set<string>, props: Props) {
    && |errors| == |notAllowed|
    && (forall i | 0 <= i < |errors| ::
          exists p :: p in notAllowed && p in props && errors[i] == WhitelistError(obj, p, props[p]))
    && (forall p | p in notAllowed :: exists i :: 0 <= i < |errors| && errors[i].property == Some(p))
  }

  lemma {:induction false} DistinctCardinality(s: seq<string>)
    requires Distinct(s)
    ensures |set x | x in s| == |s|
  {
    if s != [] {
      DistinctCardinality(s[1..]);
      assert (set x | x in s) == (set x | x in s[1..]) + {s[0]};
      assert s[0] !in (set x | x in s[1..]);
    }
  }

  /** Enumerates the own properties and lists those no declaration allows. */
  method CollectNotAllowed(ms: seq<ValidationMetadata>, props: Props) returns (notAllowed: seq<string>)
    ensures forall p :: p in notAllowed <==> p in NotAllowed(ms, props)
    ensures Distinct(notAllowed)
    ensures |notAllowed| == |NotAllowed(ms, props)|
  {
    notAllowed := [];
    var keys := props.Keys;
    while keys != {}
      invariant keys <= props.Keys
      invariant forall p :: p in notAllowed <==> p in NotAllowed(ms, props) && p !in keys
      invariant Distinct(notAllowed)
      decreases keys
    {
      var p :| p in keys;
      if !IsAllowed(ms, props, p) {
        notAllowed := notAllowed + [p];
      }
      keys := keys - {p};
    }
    DistinctCardinality(notAllowed);
    assert (set x | x in notAllowed) == NotAllowed(ms, props);
  }

  /**
   * The whitelist pass proper. Conditions are evaluated against the object as
   * it is when the pass starts; then the not-allowed properties are either
   * reported or deleted.
   */
  method WhitelistPass(obj: Instance, ms: seq<ValidationMetadata>, forbidNonWhitelisted: bool)
    returns (errors: seq<ValidationError>)
    modifies obj
    ensures forbidNonWhitelisted ==>
      obj.props == old(obj.props) && ReportsExactly(errors, obj, NotAllowed(ms, old(obj.props)), old(obj.props))
    ensures !forbidNonWhitelisted ==>
      obj.props == Stripped(ms, old(obj.props)) && errors == []
  {
    var snapshot := obj.props;
    var notAllowed := CollectNotAllowed(ms, snapshot);
    errors := [];
    if forbidNonWhitelisted {
      for i := 0 to |notAllowed|
        invariant |errors| == i
        invariant forall j | 0 <= j < i :: errors[j] == WhitelistError(obj, notAllowed[j], snapshot[notAllowed[j]])
      {
        errors := errors + [WhitelistError(obj, notAllowed[i], snapshot[notAllowed[i]])];
      }
      ghost var na := NotAllowed(ms, snapshot);
      forall i | 0 <= i < |errors|
        ensures exists p :: p in na && p in snapshot && errors[i] == WhitelistError(obj, p, snapshot[p])
      {
        assert notAllowed[i] in notAllowed;
      }
      forall p | p in na
        ensures exists i :: 0 <= i < |errors| && errors[i].property == Some(p)
      {
        var i :| 0 <= i < |notAllowed| && notAllowed[i] == p;
        assert errors[i].property == Some(p);
      }
    } else {
      for i := 0 to |notAllowed|
        invariant forall p :: p in obj.props <==> p in snapshot && p !in notAllowed[..i]
        invariant forall p | p in obj.props :: obj.props[p] == snapshot[p]
      {
        obj.props := obj.props - {notAllowed[i]};
      }
      assert notAllowed[..|notAllowed|] == notAllowed;
      assert obj.props.Keys == Stripped(ms, snapshot).Keys;
    }
  }

  /**
   * `validate(obj, options)` restricted to what precedes constraint checking:
   * the unknown-value check, then the whitelist pass.
   */
  method Validate(obj: Instance, storage: MetadataStorage, options: ValidatorOptions)
    returns (errors: seq<ValidationError>)
    modifies obj
    ensures var ms := storage.TargetValidationMetadatas(obj.cls);
      if ForbidsUnknownValues(options) && ms == [] then
        errors == [UnknownValueError(obj)] && obj.props == old(obj.props)
      else if !options.whitelist then
        errors == [] && obj.props == old(obj.props)
      else if options.forbidNonWhitelisted then
        obj.props == old(obj.props) && ReportsExactly(errors, obj, NotAllowed(ms, old(obj.props)), old(obj.props))
      else
        obj.props == Stripped(ms, old(obj.props)) && errors == []
  {
    var targetMetadatas := storage.TargetValidationMetadatas(obj.cls);
    if ForbidsUnknownValues(options) && |targetMetadatas| == 0 {
      errors := [UnknownValueError(obj)];
      return;
    }
    errors := [];
    if options.whitelist {
      errors := WhitelistPass(obj, targetMetadatas, options.forbidNonWhitelisted);
    }
  }
}

/** Properties of the whitelist pass, stated on its specification functions. */
module WhitelistProperties {
  import opened Wrappers
  import opened Values
  import opened Metadata
  import opened WhitelistValidation

  /** A present property with no declaration at all is not allowed. */
  lemma UndeclaredIsNotAllowed(ms: seq<ValidationMetadata>, props: Props, p: string)
    requires p in props
    requires forall i | 0 <= i < |ms| :: ms[i].propertyName != p
    ensures p in NotAllowed(ms, props)
  {
  }

  /**
   * A property declared only by declarations without an allow-condition (ordinary
   * constraints or `@Allow`) is never removed nor reported, whatever the object.
   */
  lemma {:induction false} UnconditionalDeclarationAllows(ms: seq<ValidationMetadata>, props: Props, i: nat)
    requires i < |ms| && ConditionOf(ms[i]) == None
    requires forall j | 0 <= j < |ms| && ms[j].propertyName == ms[i].propertyName :: ConditionOf(ms[j]) == None
    ensures ms[i].propertyName !in NotAllowed(ms, props)
  {
    assert Allows(ms[i], props);
  }

  /**
   * When every declaration of a present property is an allow-condition `c`,
   * the property is allowed exactly when `c` holds of the object.
   */
  lemma {:induction false} ConditionDecides(ms: seq<ValidationMetadata>, props: Props, p: string, c: Props -> bool, k: nat)
    requires p in props
    requires k < |ms| && ms[k].propertyName == p
    requires forall i | 0 <= i < |ms| && ms[i].propertyName == p :: ConditionOf(ms[i]) == Some(c)
    ensures p in NotAllowed(ms, props) <==> !c(props)
  {
    if c(props) {
      assert Allows(ms[k], props);
    }
  }

  /** The conditions in `ms` give the same answer on `a` and on `b`. */
  ghost predicate ConditionsAgree(ms: seq<ValidationMetadata>, a: Props, b: Props) {
    forall i | 0 <= i < |ms| && ConditionOf(ms[i]).Some? :: ConditionOf(ms[i]).value(a) == ConditionOf(ms[i]).value(b)
  }

  /**
   * Stripping twice is stripping once, as long as no allow-condition changes
   * its answer because of the properties the first pass deleted.
   */
  lemma {:induction false} StripIdempotent(ms: seq<ValidationMetadata>, props: Props)
    requires ConditionsAgree(ms, props, Stripped(ms, props))
    ensures NotAllowed(ms, Stripped(ms, props)) == {}
    ensures Stripped(ms, Stripped(ms, props)) == Stripped(ms, props)
  {
    var once := Stripped(ms, props);
    forall p | p in once
      ensures IsAllowed(ms, once, p)
    {
      var i :| 0 <= i < |ms| && ms[i].propertyName == p && Allows(ms[i], props);
      assert Allows(ms[i], once);
    }
    assert NotAllowed(ms, once) == {};
  }
}
