# class-validator: the whitelist pass, `@AllowIf` and `@IsArray`

A Dafny model of three pieces of class-validator, an engine that validates
class instances against constraints declared on their properties with
decorators.

- **The whitelist pass** of `validate(instance, options)`. With
  `whitelist: true`, every own property of the instance that no declaration
  allows is deleted from the instance in place, and no error is produced. With
  `forbidNonWhitelisted: true` as well, each such property is kept instead and
  produces exactly one error whose `constraints` carry the `Whitelist` key. A
  property is allowed when it has an ordinary constraint (`@IsDefined`, `@Min`,
  `@IsOptional`, `@IsArray`), the `@Allow` marker, or an `@AllowIf(condition)`
  whose condition holds of the instance at validation time. Properties never
  assigned on the instance are not examined. Before the pass, the
  unknown-value check runs. It is on unless `forbidUnknownValues: false` is
  given. An instance whose class has no registered metadata then yields one
  `unknownValue` error, and the pass does not run.
- **`@AllowIf(condition, validationOptions)`** builds one `Whitelist` metadata
  record and appends it to the metadata storage. The record holds the decorated
  class, the property name, `constraints = [condition]` and the options as
  given. The condition is stored, not called.
- **`isArray` / `@IsArray`**: the check is true exactly for values tagged
  `[object Array]`. The constraint is named `isArray`, ignores its validation
  arguments, and its default message is the each-prefix followed by
  `$property must be an array`. The same options go to the message builder and
  to the registration.

Layout: `wrappers.dfy` (Option), `values.dfy` (runtime values and their type
tag), `metadata.dfy` (metadata records and the storage class), `allow_if.dfy`,
`is_array.dfy`, `whitelist.dfy` (the instance class, the pass, `Validate`,
and the module `WhitelistProperties` of lemmas about the pass), and
`whitelist_scenarios.dfy` (each scenario of the whitelist test suite, and the
unknown-value case that a comment in that suite describes, stated as methods
over the model whose ensures are proved; beside them, general lemmas linking
the `@AllowIf` and `@IsArray` records to the pass and properties of repeated
passes).

The pass is imperative. `WhitelistPass` first enumerates the instance's keys
and collects the ones no declaration allows (`CollectNotAllowed`). All
conditions are evaluated against the object as it was when the pass started.
It then either deletes those keys from the instance's `props` map field or
builds one error per key. Its contract ties the new state and the errors to
the specification functions `NotAllowed` and `Stripped`. The lemmas in
`WhitelistProperties` are proved about those two functions.

Choices where the test suite is silent:
- A property with an `@AllowIf` whose condition is false and, besides it, an
  ordinary constraint is allowed: one allowing declaration is enough.
- A property reported under `forbidNonWhitelisted` is not also deleted.
- The order of whitelist errors is left open. Keys are enumerated in an
  unspecified order.

The doc comment of `AllowIf` (src/decorator/common/AllowIf.ts:8) says a
validation error "will be thrown" when an object has both allowed and
not-allowed properties. The tests show that plain `whitelist` strips silently.
The model follows the tests.

## Model

| member | source | states |
|---|---|---|
| `IsArrayDecorator.IsArray` | src/decorator/typechecker/IsArray.ts:9-11 | the check holds exactly when the value is an array (its type tag is `[object Array]`) |
| `IsArrayDecorator.IsArrayConstraint` | src/decorator/typechecker/IsArray.ts:16-27 | name is `isArray`; `validate(v, args)` holds iff `v` is an array, for every `args`; the default message is the each-prefix followed by `$property must be an array`; the given options reach both the message builder and the `ValidateBy` call |
| `IsArrayDecorator.ValidateByMetadata` | src/decorator/typechecker/IsArray.ts:17-26 | the record an `@IsArray` registers is on the decorated class and property, keeps the options, and carries no allow-condition |
| `Metadata.ConditionOf` | src/decorator/common/AllowIf.ts:16-19 | a record yields an allow-condition only if it is a `Whitelist` record with a non-empty constraints list |
| `Metadata.MetadataStorage.AddValidationMetadata` | src/decorator/common/AllowIf.ts:22 | registration appends exactly the given record after all earlier ones |
| `Metadata.MetadataStorage.TargetValidationMetadatas` | test/functional/whitelist-validation.spec.ts:86-90 | the records looked up for a class are exactly the registered records of that class |
| `AllowIfDecorator.AllowIfMetadata` | src/decorator/common/AllowIf.ts:15-21 | the record reads back as a `Whitelist` record whose one constraint is the given condition; target is the prototype's constructor, property name and options are passed through unchanged; no field depends on what the condition returns, which is not called at decoration time |
| `AllowIfDecorator.AllowIf` | src/decorator/common/AllowIf.ts:10-24 | applying the decorator grows the storage by exactly one record, leaves the earlier records in place, and appends `AllowIfMetadata` of its arguments |
| `WhitelistValidation.UnknownValueError` | test/functional/whitelist-validation.spec.ts:86-90 | the unknown-value error targets the instance, names no property and carries the `unknownValue` key |
| `WhitelistValidation.WhitelistError` | test/functional/whitelist-validation.spec.ts:131-134 | a whitelist error targets the instance, names the property, carries its value, has exactly one constraint key, the name of the `Whitelist` kind, and no children |
| `WhitelistValidation.NotAllowed` | test/functional/whitelist-validation.spec.ts:139-160 | only properties present on the instance can be found not allowed |
| `WhitelistValidation.Stripped` | test/functional/whitelist-validation.spec.ts:22-26 | stripping keeps exactly the present properties that are allowed, each with its value unchanged |
| `WhitelistValidation.CollectNotAllowed` | test/functional/whitelist-validation.spec.ts:17-24 | enumerating the own keys lists every not-allowed property exactly once and nothing else |
| `WhitelistValidation.WhitelistPass` | test/functional/whitelist-validation.spec.ts:8-188 | without forbidding: the instance becomes `Stripped` of its old state and no error is returned; with forbidding: the instance is unchanged and there is exactly one `Whitelist` error per not-allowed property, with its old value and the instance as target |
| `WhitelistValidation.Validate` | test/functional/whitelist-validation.spec.ts:86-90 | unknown-value check first (one error, nothing stripped, when the class has no records and the check is not switched off); otherwise the whitelist pass when `whitelist` is set; otherwise no error and no change |
| `WhitelistProperties.UndeclaredIsNotAllowed` | test/functional/whitelist-validation.spec.ts:162-188 | a present property with no declaration is not allowed |
| `WhitelistProperties.UnconditionalDeclarationAllows` | test/functional/whitelist-validation.spec.ts:30-46 | a property whose declarations carry no allow-condition (ordinary constraints, `@Allow`) is allowed whatever the object |
| `WhitelistProperties.ConditionDecides` | test/functional/whitelist-validation.spec.ts:48-82 | a present property whose declarations are all `AllowIf(c)` is not allowed exactly when `c` is false of the object |
| `WhitelistProperties.StripIdempotent` | test/functional/whitelist-validation.spec.ts:8-28 | a property of the model generalising the cited scenario (which runs one pass): if no condition changes its answer after the first strip, a second strip finds nothing to remove and changes nothing |
| `WhitelistScenarios.StripsUndeclaredProperty` | test/functional/whitelist-validation.spec.ts:8-28 | `{whitelist}`: no error; afterwards the object is `{title: 'hello', views: 56}` |
| `WhitelistScenarios.AllowMarkerKeepsProperty` | test/functional/whitelist-validation.spec.ts:30-46 | `@Allow` keeps `views: 420`, the undeclared sibling is stripped, no error |
| `WhitelistScenarios.FalseConditionStrips` | test/functional/whitelist-validation.spec.ts:48-64 | `@AllowIf(o => false)` under `{whitelist}`: both properties stripped, no error |
| `WhitelistScenarios.TrueConditionKeeps` | test/functional/whitelist-validation.spec.ts:66-82 | `@AllowIf(o => true)` under `{whitelist}`: `views: 420` kept, sibling stripped, no error |
| `WhitelistScenarios.ForbidTrueConditionNoError` | test/functional/whitelist-validation.spec.ts:84-108 | forbidding, condition true: no error, value `'conditional-whitelisted'` untouched |
| `WhitelistScenarios.ForbidFalseConditionOneError` | test/functional/whitelist-validation.spec.ts:110-137 | forbidding, condition false, property assigned: exactly one error, targeting the instance, for `nonDecorated`, with the `Whitelist` key |
| `WhitelistScenarios.ForbidUnassignedPropertyNoError` | test/functional/whitelist-validation.spec.ts:139-160 | forbidding, condition false, property never assigned: no error and the property stays undefined |
| `WhitelistScenarios.ForbidUndeclaredOneError` | test/functional/whitelist-validation.spec.ts:162-188 | forbidding, undeclared property: exactly one error, targeting the instance, for `nonDecorated`, with the `Whitelist` key |
| `WhitelistScenarios.UnknownValueCheckComesFirst` | test/functional/whitelist-validation.spec.ts:86-90 | a class with no records under forbidding options: the single error is the unknown-value error and nothing is stripped |
| `WhitelistScenarios.AllowIfAloneDecides` | src/decorator/common/AllowIf.ts:19 | the record `AllowIf` registers, as a property's only declaration, keeps a present property exactly when its condition holds |
| `WhitelistScenarios.AllowIfKindIsWhitelistErrorKey` | src/decorator/common/AllowIf.ts:16 | the kind stored in the `AllowIf` record, by its name, is the one constraint key of a whitelist error: one constant serves both |
| `WhitelistScenarios.IsArrayKeepsProperty` | src/decorator/typechecker/IsArray.ts:16-27 | a property of the model generalising the cited constraint: a property declared `@IsArray`, with no allow-condition among its declarations, is never found not allowed, whatever its value |
| `WhitelistScenarios.ConditionEvaluatedPerCall` | test/functional/whitelist-validation.spec.ts:48-82 | a property of the model generalising the cited scenarios (whose conditions are constant): the same shape gives different outcomes when the field the condition reads changes between calls, so conditions are evaluated per call, not cached |
| `WhitelistScenarios.StripNotIdempotentInGeneral` | test/functional/whitelist-validation.spec.ts:8-28 | a property of the model beyond the cited scenario (which runs one pass): a concrete object and condition on which a second strip removes more than the first, because the condition reads a property the first pass deleted |

## Left out

- Constraint evaluation is not modelled: `@IsDefined`, `@Min`, `@IsOptional` and `@IsArray` only mark their property as declared. `Validate` returns only the unknown-value and whitelist errors.
- The validator and executor sources (`src/validation/Validator`, the executor's whitelist code) are not part of this model. The pass is rebuilt from the test assertions, so its structure (collect, then delete or report) is a reconstruction.
- The constants defined in those files are the library's values: `whitelistValidation` for `ValidationTypes.WHITELIST`, the `unknownValue` key and its message, and the whitelist message text. The tests check none of these strings; they refer to the whitelist key only by the name `ValidationTypes.WHITELIST`.
- IsAllowed: a property that carries both an ordinary constraint and an `@AllowIf` whose condition is false is allowed in this model. No test decides this case and the program may resolve it the other way; no lemma relies on it.
- The record `ValidateBy` registers is not modelled from its source. `ValidateByMetadata` assumes a `CustomValidation` record with no allow-condition.
- `buildMessage` internals are not modelled: how the each-prefix is chosen and how `$property` is substituted.
- `Object.prototype.toString` is replaced by the `TypeTag` of an abstract value datatype, so only true arrays are tagged `[object Array]`. An object whose `Symbol.toStringTag` is `'Array'`, which `isArray` also accepts, cannot be represented. Functions are not represented either. Numbers are integers; floating point is not modelled.
- The promise returned by `validate` is not modelled; `Validate` is synchronous. Async constraints are not modelled either.
- A condition that throws is not modelled: conditions are total functions.
- Nested objects, groups, `skipMissingProperties`, `stopAtFirstError`, the `validationError.target`/`value` options and ancestor-class metadata lookup are not modelled.
- `ValidationError.toString()` is not modelled.
- TypeScript decorator mechanics and reflection are out. A decorator is applied by calling the model's function with the prototype and property name.
- The global `getMetadataStorage()` singleton becomes an explicit `MetadataStorage` object passed to the decorator and to `Validate`.
- The insertion order of `Object.keys` is not modelled. Keys are enumerated in an unspecified order, so the order of whitelist errors is left open.
