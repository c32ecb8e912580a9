/**
 * The `@AllowIf(condition, validationOptions)` property decorator: it builds
 * one `Whitelist` record holding the condition and appends it to the metadata
 * storage. The condition is stored, not called: the decorator has no instance
 * to call it on, and the whitelist pass evaluates it at validation time.
 */
module AllowIfDecorator {
  import opened Wrappers
  import opened Values
  import opened Metadata

  /** The record the decorator registers for `propertyName` of `proto`'s class. */
  function AllowIfMetadata(
    condition: Props -> bool,
    validationOptions: Option<ValidationOptions>,
    proto: Prototype,
    propertyName: string): (r: ValidationMetadata)
    ensures ConditionOf(r) == Some(condition)
    ensures r.kind == Whitelist && |r.constraints| == 1
    ensures r.target == proto.ctor && r.propertyName == propertyName
    ensures r.validationOptions == validationOptions
  {
    ValidationMetadata(Whitelist, proto.ctor, propertyName, [Condition(condition)], validationOptions)
  }

  /** Applies the decorator returned by `AllowIf(condition, validationOptions)`. */
  method AllowIf(
    storage: MetadataStorage,
    condition: Props -> bool,
    validationOptions: Option<ValidationOptions>,
    proto: Prototype,
    propertyName: string)
    modifies storage
    ensures |storage.validationMetadatas| == |old(storage.validationMetadatas)| + 1
    ensures storage.validationMetadatas[..|old(storage.validationMetadatas)|] == old(storage.validationMetadatas)
    ensures storage.validationMetadatas[|old(storage.validationMetadatas)|]
      == AllowIfMetadata(condition, validationOptions, proto, propertyName)
  {
    storage.AddValidationMetadata(AllowIfMetadata(condition, validationOptions, proto, propertyName));
  }

}
